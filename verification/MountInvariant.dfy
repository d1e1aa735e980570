/** What every orderly action keeps, races or not: locks, records, processes and what each
    operation knows of its own. */
module MountInvariant {
  import opened Common
  import opened Process
  import opened MountProtocol

  /** The process `sid`'s record was written for is running. */
  predicate OwnLive(w: World, sid: ServerId) {
    && sid in w.records && sid in w.owners
    && w.records[sid].pid in w.procs
    && w.procs[w.records[sid].pid].serial == w.owners[sid]
  }

  ghost predicate LocksAgree(s: System) {
    && (forall sid :: sid in s.world.mountLocks ==>
          s.world.mountLocks[sid] in s.threads && s.threads[s.world.mountLocks[sid]].server == Some(sid))
    && (forall t :: t in s.threads && s.threads[t].server.Some? ==>
          s.threads[t].server.value in s.world.mountLocks && s.world.mountLocks[s.threads[t].server.value] == t)
    && (s.world.allocation.Some? ==> s.world.allocation.value in s.threads)
    && (forall t :: t in s.threads ==>
          (s.threads[t].survey.Survey? <==> s.world.allocation == Some(t)))
  }

  predicate OwnSane(o: Own) {
    && (o.child.Some? || o.record.Some? ==> o.loaded)
    && (o.saved ==> o.child.Some? && o.record.Some?)
    && (o.child.Some? && o.record.Some? ==>
          && o.record.value.pid == o.child.value.pid
          && o.child.value.started == Some(o.record.value.startedAt)
          && ArgvMatches(o.child.value.command, o.record.value, WINDOWS))
  }

  predicate SurveySane(server: Option<ServerId>, v: Survey) {
    && (v.Survey? && v.listed.None? ==> v.check.Idle? && v.cleared == {})
    && (v.Survey? && (v.check.Reading? || v.check.Snapped?) ==>
          v.check.server in v.listed.value && server != Some(v.check.server))
  }

  /** Bookkeeping inside one operation. */
  predicate LocalSane(l: Local) {
    && (l.server.None? ==> l == FRESH)
    && OwnSane(l.own) && SurveySane(l.server, l.survey)
    && (l.own.child.Some? && l.survey.Survey? ==> l.survey.listed.Some? && l.survey.check.Idle?)
  }

  ghost predicate LocalsSane(s: System) {
    forall t :: t in s.threads ==> LocalSane(s.threads[t])
  }

  ghost predicate ProcsSane(w: World) {
    && (forall p :: p in w.procs ==> w.procs[p].serial < w.next)
    && (forall p :: p in w.procs ==>
          (p, w.procs[p].startedAt) in w.used && w.used[(p, w.procs[p].startedAt)] == w.procs[p].serial)
    && (forall sid :: sid in w.records ==> sid in w.owners && w.records[sid].serverId == sid)
    && (forall sid :: sid in w.owners ==> w.owners[sid] < w.next)
  }

  /** A spawned process is found under its own PID and runs the command it was given. */
  ghost predicate ChildSane(w: World, c: Child) {
    && c.serial < w.next
    && (forall p :: p in w.procs && w.procs[p].serial == c.serial ==> p == c.pid && w.procs[p].command == c.command)
    && (c.started.None? && c.pid in w.procs ==> w.procs[c.pid].serial == c.serial)
    && (c.started.Some? && c.started.value.Some? ==>
          (c.pid, c.started.value.value) in w.used && w.used[(c.pid, c.started.value.value)] == c.serial)
    && (c.started.Some? && c.pid in w.procs && w.procs[c.pid].serial == c.serial ==>
          c.started.value == Some(w.procs[c.pid].startedAt))
  }

  /** Once its own argv was read, the child is past exec. */
  ghost predicate ExecKnown(w: World, o: Own) {
    o.execSeen ==>
      && o.child.Some?
      && forall p :: p in w.procs && w.procs[p].serial == o.child.value.serial ==> w.procs[p].execed
  }

  ghost predicate OwnChildSane(w: World, o: Own) {
    && (o.child.Some? ==> ChildSane(w, o.child.value))
    && ExecKnown(w, o)
  }

  ghost predicate ChildrenSane(s: System) {
    forall t :: t in s.threads ==> OwnChildSane(s.world, s.threads[t].own)
  }

  /** `b` is `a` up to a change of phase to Mounted. */
  predicate SameIdentity(a: MountState, b: MountState) {
    a == b || a.(phase := Mounted) == b
  }

  /** What the record on disk has to do with the operation holding its lock. */
  ghost predicate RecordAgrees(w: World, sid: ServerId, o: Own) {
    o.loaded ==>
      && (o.child.None? ==> Lookup(w.records, sid) == o.record)
      && (o.child.Some? && sid in w.records ==>
            && o.record.Some? && sid in w.owners && w.owners[sid] == o.child.value.serial
            && SameIdentity(w.records[sid], o.record.value))
      && (o.saved ==> sid in w.records)
      && (o.dead ==> !OwnLive(w, sid))
  }

  ghost predicate RecordsAgree(s: System) {
    forall t :: t in s.threads && s.threads[t].server.Some? ==>
      RecordAgrees(s.world, s.threads[t].server.value, s.threads[t].own)
  }

  /** A recorded process that has not reached exec is still being mounted. */
  ghost predicate PreExec(s: System, sid: ServerId)
    requires OwnLive(s.world, sid)
  {
    && sid in s.world.mountLocks && s.world.mountLocks[sid] in s.threads
    && s.world.records[sid].phase.Starting?
    && s.threads[s.world.mountLocks[sid]].own.child.Some?
    && s.threads[s.world.mountLocks[sid]].own.child.value.serial == s.world.owners[sid]
  }

  ghost predicate PreExecHeld(s: System) {
    forall sid :: OwnLive(s.world, sid) && !s.world.procs[s.world.records[sid].pid].execed ==> PreExec(s, sid)
  }

  /** A record describes the process it was written for, as long as that runs. */
  ghost predicate Identified(w: World) {
    && (forall sid :: OwnLive(w, sid) ==>
          && ArgvMatches(w.procs[w.records[sid].pid].command, w.records[sid], WINDOWS)
          && w.records[sid].startedAt == Some(w.procs[w.records[sid].pid].startedAt))
    && (forall sid :: sid in w.records && w.records[sid].startedAt.Some? ==>
          sid in w.owners && (w.records[sid].pid, w.records[sid].startedAt.value) in w.used
          && w.used[(w.records[sid].pid, w.records[sid].startedAt.value)] == w.owners[sid])
  }

  ghost predicate Base(s: System) {
    && LocksAgree(s) && LocalsSane(s) && ProcsSane(s.world) && ChildrenSane(s)
    && RecordsAgree(s) && PreExecHeld(s) && Identified(s.world)
  }

  // ----- one event, seen by its own operation -----

  lemma NextOwnSane(server: ServerId, o: Own, v: Survey, e: Event)
    requires OwnSane(o) && AllowedOwn(server, o, v, e)
    ensures OwnSane(NextOwn(o, e))
  {
  }

  lemma NextSurveySane(server: Option<ServerId>, v: Survey, e: Event)
    requires SurveySane(server, v) && AllowedSurvey(v, e)
    requires e.ReadOther? && e.other.Some? ==> e.other.value.serverId == e.server
    ensures SurveySane(server, NextSurvey(server, v, e))
  {
  }

  /** An event leaves the process table alone; only saving and removing touch a record. */
  lemma EffectFrame(w: World, t: Tid, l: Local, e: Event)
    ensures var w' := Effect(w, t, l, e);
      && w'.procs == w.procs && w'.used == w.used && w'.next == w.next
      && (!e.Save? && !e.Remove? ==> w'.records == w.records && w'.owners == w.owners)
  {
  }

  lemma NotMountNeverMatches(arguments: Args, state: MountState)
    requires NotAMountCommand(arguments)
    ensures !ArgvMatches(arguments, state, WINDOWS)
  {
  }

  lemma PhaseIrrelevant(arguments: Args, a: MountState, b: MountState)
    requires SameIdentity(a, b)
    ensures ArgvMatches(arguments, a, WINDOWS) == ArgvMatches(arguments, b, WINDOWS)
  {
  }

  lemma NextChildSane(w: World, o: Own, e: Event)
    requires ProcsSane(w) && OwnSane(o) && !e.Spawn?
    requires o.child.Some? ==> ChildSane(w, o.child.value)
    requires e.Observe? ==> HonestSnapshot(w, e.pid, e.snapshot)
    ensures NextOwn(o, e).child.Some? ==> ChildSane(w, NextOwn(o, e).child.value)
  {
    if e.Observe? {
      ObserveChildSane(w, o.(verified := false), e.pid, e.snapshot);
    } else {
      ChildKept(o, e);
    }
  }

  lemma ChildKept(o: Own, e: Event)
    requires !e.Spawn? && !e.Observe?
    ensures NextOwn(o, e).child == o.child
  {
    if !e.Load? && !e.Save? && !e.Remove? && !e.RcAnswer? {
      assert NextOwn(o, e) == o.(verified := false);
    }
  }

  lemma ObserveChildSane(w: World, o: Own, pid: nat, snapshot: Option<ProcessSnapshot>)
    requires ProcsSane(w) && HonestSnapshot(w, pid, snapshot)
    requires o.child.Some? ==> ChildSane(w, o.child.value)
    ensures NextObserve(o, pid, snapshot).child.Some? ==> ChildSane(w, NextObserve(o, pid, snapshot).child.value)
  {
    if FirstLook(o, pid) {
      FirstSeen(w, o.child.value, snapshot);
    }
    ObservedChild(o, pid, snapshot);
  }

  predicate FirstLook(o: Own, pid: nat) {
    o.child.Some? && o.child.value.started.None? && o.child.value.pid == pid
  }

  lemma ObservedChild(o: Own, pid: nat, snapshot: Option<ProcessSnapshot>)
    ensures NextObserve(o, pid, snapshot).child
         == if FirstLook(o, pid)
            then Some(o.child.value.(started := Some(if snapshot.Some? then Some(snapshot.value.startedAt) else None)))
            else o.child
  {
  }

  /** The first snapshot of a new process shows its own start time, if the process is there. */
  lemma FirstSeen(w: World, c: Child, snapshot: Option<ProcessSnapshot>)
    requires ProcsSane(w) && ChildSane(w, c) && c.started.None? && HonestSnapshot(w, c.pid, snapshot)
    ensures ChildSane(w, c.(started := Some(if snapshot.Some? then Some(snapshot.value.startedAt) else None)))
  {
  }

  lemma NextExecKnown(w: World, o: Own, e: Event)
    requires OwnSane(o) && OwnChildSane(w, o) && !e.Spawn?
    requires e.Observe? ==> HonestSnapshot(w, e.pid, e.snapshot)
    ensures ExecKnown(w, NextOwn(o, e))
  {
    if e.Observe? && !o.execSeen && NextOwn(o, e).execSeen {
      assert Verified(o.record.value, e.snapshot, WINDOWS);
      if !w.procs[e.pid].execed {
        NotMountNeverMatches(e.snapshot.value.arguments.value, o.record.value);
      }
    }
  }

  /** The lock holder's knowledge of its own record stays right under its own events. */
  lemma NextRecordAgrees(w: World, t: Tid, l: Local, e: Event)
    requires l.server.Some? && LocalSane(l) && !e.Observe?
    requires RecordAgrees(w, l.server.value, l.own)
    requires Possible(w, t, l, e) && AllowedOwn(l.server.value, l.own, l.survey, e)
    ensures RecordAgrees(Effect(w, t, l, e), l.server.value, NextOwn(l.own, e))
  {
    if e.Save? {
      SaveRecordAgrees(w, t, l, e);
    } else if e.Remove? {
      RemoveRecordAgrees(w, t, l, e);
    }
  }

  lemma SaveRecordAgrees(w: World, t: Tid, l: Local, e: Event)
    requires l.server.Some? && LocalSane(l) && e.Save?
    requires RecordAgrees(w, l.server.value, l.own) && AllowedOwn(l.server.value, l.own, l.survey, e)
    ensures RecordAgrees(Effect(w, t, l, e), l.server.value, NextOwn(l.own, e))
  {
  }

  lemma RemoveRecordAgrees(w: World, t: Tid, l: Local, e: Event)
    requires l.server.Some? && LocalSane(l) && e.Remove?
    requires RecordAgrees(w, l.server.value, l.own) && AllowedOwn(l.server.value, l.own, l.survey, e)
    ensures RecordAgrees(Effect(w, t, l, e), l.server.value, NextOwn(l.own, e))
  {
  }

  /** A snapshot taken as proof that the record's process is gone is right. */
  lemma RefutationSound(w: World, sid: ServerId, o: Own, snapshot: Option<ProcessSnapshot>)
    requires OwnSane(o) && Identified(w) && RecordAgrees(w, sid, o)
    requires o.record.Some? && HonestSnapshot(w, o.record.value.pid, snapshot)
    requires OwnLive(w, sid) && o.child.None? ==> w.procs[w.records[sid].pid].execed
    ensures Refutes(o, snapshot) ==> !OwnLive(w, sid)
  {
  }

  lemma ObserveRecordAgrees(w: World, sid: ServerId, o: Own, pid: nat, snapshot: Option<ProcessSnapshot>)
    requires OwnSane(o) && Identified(w) && RecordAgrees(w, sid, o)
    requires HonestSnapshot(w, pid, snapshot)
    requires OwnLive(w, sid) && o.child.None? ==> w.procs[w.records[sid].pid].execed
    ensures RecordAgrees(w, sid, NextOwn(o, Observe(pid, snapshot)))
  {
    var now := NextOwn(o, Observe(pid, snapshot));
    ObservedSame(o, pid, snapshot);
    if now.dead && !o.dead {
      ObservedDead(o, pid, snapshot);
      RefutationSound(w, sid, o, snapshot);
    }
  }

  /** A snapshot changes nothing that is known of the record or of the child's incarnation. */
  lemma ObservedSame(o: Own, pid: nat, snapshot: Option<ProcessSnapshot>)
    ensures var now := NextOwn(o, Observe(pid, snapshot));
      && now.loaded == o.loaded && now.record == o.record && now.saved == o.saved
      && (now.child.Some? <==> o.child.Some?)
      && (o.child.Some? ==> now.child.value.serial == o.child.value.serial)
  {
  }

  lemma ObservedDead(o: Own, pid: nat, snapshot: Option<ProcessSnapshot>)
    requires NextOwn(o, Observe(pid, snapshot)).dead && !o.dead
    ensures o.record.Some? && o.record.value.pid == pid && Refutes(o, snapshot)
  {
  }

  // ----- the operation's own record and process -----

  predicate IsOwn(e: Event) {
    e.Load? || e.Observe? || e.Save? || e.Remove? || e.RcAnswer? || e.Quit? || e.Kill?
  }

  /** The record an operation has just written describes its child, and it is either the first
      one, backed by a survey, or the old one with a later phase. */
  ghost predicate Written(w: World, w': World, l: Local, sid: ServerId) {
    && sid in w'.records && l.own.child.Some?
    && var c, r := l.own.child.value, w'.records[sid];
    && sid in w'.owners && w'.owners[sid] == c.serial
    && r.serverId == sid && r.pid == c.pid && c.started == Some(r.startedAt)
    && ArgvMatches(c.command, r, WINDOWS)
    && ((r.phase.Starting? && l.survey.Survey? && l.survey.key == Key(r))
        || (l.own.execSeen && sid in w.records && sid in w.owners && w.owners[sid] == c.serial
            && SameIdentity(w.records[sid], r) && r.phase.Mounted?))
  }

  ghost predicate SameElsewhere<V>(m: map<ServerId, V>, m': map<ServerId, V>, k: ServerId) {
    && (forall o :: o in m && o != k ==> o in m' && m'[o] == m[o])
    && (forall o :: o in m' && o != k ==> o in m)
  }

  /** An operation changed nothing but its own knowledge and its own record. */
  ghost predicate OwnShape(s: System, s': System, t: Tid, sid: ServerId) {
    && t in s.threads && t in s'.threads && s.threads[t].server == Some(sid)
    && s'.threads == s.threads[t := s'.threads[t]]
    && s'.threads[t].server == Some(sid) && s'.threads[t].survey == s.threads[t].survey
    && (s'.threads[t].own.child.Some? <==> s.threads[t].own.child.Some?)
    && (s.threads[t].own.child.Some? ==> s'.threads[t].own.child.value.serial == s.threads[t].own.child.value.serial)
    && s'.world.procs == s.world.procs && s'.world.used == s.world.used && s'.world.next == s.world.next
    && s'.world.mountLocks == s.world.mountLocks && s'.world.allocation == s.world.allocation
    && SameElsewhere(s.world.records, s'.world.records, sid) && SameElsewhere(s.world.owners, s'.world.owners, sid)
    && (forall o :: o in s.world.owners ==> o in s'.world.owners)
    && (|| Written(s.world, s'.world, s.threads[t], sid)
        || (s'.world.owners == s.world.owners
            && (sid in s'.world.records ==> sid in s.world.records && s'.world.records[sid] == s.world.records[sid])))
  }

  lemma OwnShapeHolds(s: System, t: Tid, e: Event)
    requires LocksAgree(s) && LocalsSane(s) && RecordsAgree(s)
    requires IsOwn(e) && Enabled(s, Do(t, e))
    ensures t in s.threads && s.threads[t].server.Some? && OwnShape(s, Apply(s, Do(t, e)), t, s.threads[t].server.value)
    ensures Apply(s, Do(t, e)).threads[t].own == NextOwn(s.threads[t].own, e)
  {
    assert t in s.threads;
    var l := s.threads[t];
    var sid := l.server.value;
    assert LocalSane(l) && RecordAgrees(s.world, sid, l.own);
    OwnEffect(s.world, t, l, e);
    OwnNextLocal(l, e);
  }

  /** An own event changes what is known of the own record and process, and nothing else. */
  lemma OwnNextLocal(l: Local, e: Event)
    requires IsOwn(e)
    ensures Next(l, e) == Local(l.server, NextOwn(l.own, e), l.survey)
    ensures NextOwn(l.own, e).child.Some? <==> l.own.child.Some?
    ensures l.own.child.Some? ==> NextOwn(l.own, e).child.value.serial == l.own.child.value.serial
  {
  }

  /** What an operation's own event does to the machine. */
  ghost predicate OwnEffected(w: World, w': World, l: Local, sid: ServerId) {
    && w'.procs == w.procs && w'.used == w.used && w'.next == w.next
    && w'.mountLocks == w.mountLocks && w'.allocation == w.allocation
    && SameElsewhere(w.records, w'.records, sid) && SameElsewhere(w.owners, w'.owners, sid)
    && (forall o :: o in w.owners ==> o in w'.owners)
    && (|| Written(w, w', l, sid)
        || (w'.owners == w.owners && (sid in w'.records ==> sid in w.records && w'.records[sid] == w.records[sid])))
  }

  lemma OwnEffect(w: World, t: Tid, l: Local, e: Event)
    requires IsOwn(e) && l.server.Some? && LocalSane(l) && RecordAgrees(w, l.server.value, l.own)
    requires AllowedOwn(l.server.value, l.own, l.survey, e)
    ensures OwnEffected(w, Effect(w, t, l, e), l, l.server.value)
  {
    if e.Save? && e.written {
      SaveEffect(w, t, l, e);
    } else if e.Remove? {
      RemoveEffect(w, t, l, e);
    }
  }

  lemma SaveEffect(w: World, t: Tid, l: Local, e: Event)
    requires e.Save? && e.written && l.server.Some? && LocalSane(l) && RecordAgrees(w, l.server.value, l.own)
    requires AllowedOwn(l.server.value, l.own, l.survey, e)
    ensures OwnEffected(w, Effect(w, t, l, e), l, l.server.value)
  {
    assert Written(w, Effect(w, t, l, e), l, l.server.value);
  }

  lemma RemoveEffect(w: World, t: Tid, l: Local, e: Event)
    requires e.Remove? && l.server.Some?
    ensures OwnEffected(w, Effect(w, t, l, e), l, l.server.value)
  {
  }

  lemma OwnLocks(s: System, s': System, t: Tid, sid: ServerId)
    requires LocksAgree(s) && OwnShape(s, s', t, sid)
    ensures LocksAgree(s')
  {
  }

  lemma OwnProcs(s: System, s': System, t: Tid, sid: ServerId)
    requires ProcsSane(s.world) && ChildrenSane(s) && OwnShape(s, s', t, sid)
    ensures ProcsSane(s'.world)
  {
    assert OwnChildSane(s.world, s.threads[t].own);
  }

  lemma OtherRecordAgrees(s: System, s': System, t: Tid, sid: ServerId, u: Tid)
    requires LocksAgree(s) && RecordsAgree(s) && OwnShape(s, s', t, sid)
    requires u in s.threads && u != t && s.threads[u].server.Some?
    ensures RecordAgrees(s'.world, s.threads[u].server.value, s.threads[u].own)
  {
    assert s.threads[u].server.value != sid;
    assert RecordAgrees(s.world, s.threads[u].server.value, s.threads[u].own);
  }

  /** A process recorded after the step was recorded before it, or has just been written. */
  lemma OwnLiveAfter(s: System, s': System, t: Tid, sid: ServerId, o: ServerId)
    requires OwnShape(s, s', t, sid) && OwnLive(s'.world, o)
    ensures (OwnLive(s.world, o) && s'.world.records[o] == s.world.records[o]
             && s'.world.owners[o] == s.world.owners[o])
            || (o == sid && Written(s.world, s'.world, s.threads[t], sid))
  {
  }

  lemma OwnPreExec(s: System, s': System, t: Tid, sid: ServerId)
    requires LocksAgree(s) && ChildrenSane(s) && PreExecHeld(s) && OwnShape(s, s', t, sid)
    ensures PreExecHeld(s')
  {
    forall o | OwnLive(s'.world, o) && !s'.world.procs[s'.world.records[o].pid].execed
      ensures PreExec(s', o)
    {
      OwnLiveAfter(s, s', t, sid, o);
      assert OwnChildSane(s.world, s.threads[t].own);
      if OwnLive(s.world, o) {
        assert !s.world.procs[s.world.records[o].pid].execed ==> PreExec(s, o);
      }
    }
  }

  lemma OwnIdentified(s: System, s': System, t: Tid, sid: ServerId)
    requires Identified(s.world) && ChildrenSane(s) && OwnShape(s, s', t, sid)
    ensures Identified(s'.world)
  {
    assert OwnChildSane(s.world, s.threads[t].own);
    forall o | OwnLive(s'.world, o)
      ensures ArgvMatches(s'.world.procs[s'.world.records[o].pid].command, s'.world.records[o], WINDOWS)
      ensures s'.world.records[o].startedAt == Some(s'.world.procs[s'.world.records[o].pid].startedAt)
    {
      OwnLiveAfter(s, s', t, sid, o);
    }
  }

  lemma OwnStepLocals(s: System, t: Tid, e: Event)
    requires Base(s) && IsOwn(e) && Enabled(s, Do(t, e))
    ensures LocalsSane(Apply(s, Do(t, e))) && ChildrenSane(Apply(s, Do(t, e)))
  {
    OwnShapeHolds(s, t, e);
    var l := s.threads[t];
    assert LocalSane(l) && OwnChildSane(s.world, l.own);
    OwnNext(s.world, t, l, e);
    ChildrenElsewhere(s, Apply(s, Do(t, e)), t, l.server.value);
  }

  lemma OwnNext(w: World, t: Tid, l: Local, e: Event)
    requires IsOwn(e) && l.server.Some? && ProcsSane(w) && LocalSane(l) && OwnChildSane(w, l.own)
    requires Allowed(l, e) && Possible(w, t, l, e)
    ensures OwnSane(NextOwn(l.own, e)) && OwnChildSane(w, NextOwn(l.own, e))
  {
    NextOwnSane(l.server.value, l.own, l.survey, e);
    NextChildSane(w, l.own, e);
    NextExecKnown(w, l.own, e);
  }

  lemma ChildrenElsewhere(s: System, s': System, t: Tid, sid: ServerId)
    requires LocalsSane(s) && ChildrenSane(s) && OwnShape(s, s', t, sid)
    requires OwnSane(s'.threads[t].own) && OwnChildSane(s.world, s'.threads[t].own)
    ensures LocalsSane(s') && ChildrenSane(s')
  {
    forall u | u in s'.threads ensures LocalSane(s'.threads[u]) && OwnChildSane(s'.world, s'.threads[u].own) {
      assert LocalSane(s.threads[u]) && OwnChildSane(s.world, s.threads[u].own);
    }
  }

  lemma OwnRecord(s: System, t: Tid, e: Event)
    requires Base(s) && IsOwn(e) && Enabled(s, Do(t, e)) && t in s.threads && s.threads[t].server.Some?
    ensures RecordAgrees(Effect(s.world, t, s.threads[t], e), s.threads[t].server.value, NextOwn(s.threads[t].own, e))
  {
    var l := s.threads[t];
    var sid := l.server.value;
    assert LocalSane(l) && RecordAgrees(s.world, sid, l.own);
    if e.Observe? {
      assert OwnLive(s.world, sid) && !s.world.procs[s.world.records[sid].pid].execed ==> PreExec(s, sid);
      ObserveRecordAgrees(s.world, sid, l.own, e.pid, e.snapshot);
    } else {
      NextRecordAgrees(s.world, t, l, e);
    }
  }

  lemma OwnStepRecords(s: System, t: Tid, e: Event)
    requires Base(s) && IsOwn(e) && Enabled(s, Do(t, e))
    ensures RecordsAgree(Apply(s, Do(t, e)))
  {
    OwnShapeHolds(s, t, e);
    var s' := Apply(s, Do(t, e));
    var l := s.threads[t];
    var sid := l.server.value;
    OwnRecord(s, t, e);
    forall u | u in s'.threads && s'.threads[u].server.Some?
      ensures RecordAgrees(s'.world, s'.threads[u].server.value, s'.threads[u].own)
    {
      if u != t {
        OtherRecordAgrees(s, s', t, sid, u);
      }
    }
  }

  lemma OwnKeeps(s: System, s': System, t: Tid, sid: ServerId)
    requires Base(s) && OwnShape(s, s', t, sid)
    ensures LocksAgree(s') && ProcsSane(s'.world) && PreExecHeld(s') && Identified(s'.world)
  {
    OwnLocks(s, s', t, sid); OwnProcs(s, s', t, sid); OwnPreExec(s, s', t, sid); OwnIdentified(s, s', t, sid);
  }

  lemma OwnStep(s: System, t: Tid, e: Event)
    requires Base(s) && IsOwn(e) && Enabled(s, Do(t, e))
    ensures Base(Apply(s, Do(t, e)))
  {
    OwnShapeHolds(s, t, e);
    var s' := Apply(s, Do(t, e));
    assert LocalsSane(s') && ChildrenSane(s') by { OwnStepLocals(s, t, e); }
    assert RecordsAgree(s') by { OwnStepRecords(s, t, e); }
    OwnKeeps(s, s', t, s.threads[t].server.value);
  }

  // ----- locks and the reservation survey -----

  /** Processes and records are untouched, and only `t` learns anything. */
  ghost predicate QuietShape(s: System, s': System, t: Tid) {
    && t in s'.threads && s'.threads == s.threads[t := s'.threads[t]]
    && s'.world.procs == s.world.procs && s'.world.used == s.world.used && s'.world.next == s.world.next
    && s'.world.records == s.world.records && s'.world.owners == s.world.owners
    && (s'.threads[t].own == LocalOf(s, t).own.(verified := false) || s'.threads[t] == FRESH)
  }

  lemma QuietShapeHolds(s: System, t: Tid, e: Event)
    requires LocalsSane(s) && Enabled(s, Do(t, e)) && !IsOwn(e)
    ensures QuietShape(s, Apply(s, Do(t, e)), t)
    ensures Apply(s, Do(t, e)).threads[t] == Next(LocalOf(s, t), e)
  {
  }

  lemma QuietLocks(s: System, t: Tid, e: Event)
    requires LocksAgree(s) && LocalsSane(s) && Enabled(s, Do(t, e)) && !IsOwn(e)
    ensures LocksAgree(Apply(s, Do(t, e)))
  {
    if !e.LockMount? && !e.UnlockMount? && !e.LockAllocation? && !e.UnlockAllocation? {
      SameLocks(s, Apply(s, Do(t, e)), t);
    }
  }

  lemma SameLocks(s: System, s': System, t: Tid)
    requires LocksAgree(s) && t in s'.threads && s'.threads == s.threads[t := s'.threads[t]]
    requires s'.world.mountLocks == s.world.mountLocks && s'.world.allocation == s.world.allocation
    requires s'.threads[t].server == LocalOf(s, t).server
             && (s'.threads[t].survey.Survey? <==> LocalOf(s, t).survey.Survey?)
    ensures LocksAgree(s')
  {
  }

  lemma QuietNextSane(l: Local, e: Event)
    requires LocalSane(l) && !IsOwn(e) && Allowed(l, e)
    requires e.ReadOther? && e.other.Some? ==> e.other.value.serverId == e.server
    ensures LocalSane(Next(l, e))
  {
    if AllowedSurvey(l.survey, e) {
      NextSurveySane(l.server, l.survey, e);
    }
  }

  lemma QuietKeeps(s: System, s': System, t: Tid)
    requires ProcsSane(s.world) && ChildrenSane(s) && RecordsAgree(s) && Identified(s.world)
    requires QuietShape(s, s', t) && (s'.threads[t].server == LocalOf(s, t).server || !s'.threads[t].own.loaded)
    ensures ProcsSane(s'.world) && ChildrenSane(s') && RecordsAgree(s') && Identified(s'.world)
  {
    forall o ensures OwnLive(s'.world, o) == OwnLive(s.world, o) {}
    forall u | u in s'.threads
      ensures OwnChildSane(s'.world, s'.threads[u].own)
      ensures s'.threads[u].server.Some? ==> RecordAgrees(s'.world, s'.threads[u].server.value, s'.threads[u].own)
    {
      if u in s.threads {
        assert OwnChildSane(s.world, s.threads[u].own);
        assert s.threads[u].server.Some? ==> RecordAgrees(s.world, s.threads[u].server.value, s.threads[u].own);
      }
    }
  }

  lemma QuietPreExec(s: System, t: Tid, e: Event)
    requires LocksAgree(s) && ChildrenSane(s) && PreExecHeld(s)
    requires Enabled(s, Do(t, e)) && !IsOwn(e) && ExecBeforeRelease(s, Do(t, e))
    ensures PreExecHeld(Apply(s, Do(t, e)))
  {
    var s' := Apply(s, Do(t, e));
    forall o | OwnLive(s'.world, o) && !s'.world.procs[s'.world.records[o].pid].execed
      ensures PreExec(s', o)
    {
      assert OwnLive(s.world, o) && PreExec(s, o);
      var u := s.world.mountLocks[o];
      assert OwnChildSane(s.world, s.threads[u].own);
      if u == t && e.UnlockMount? {
        assert false;
      }
    }
  }

  lemma QuietLocals(s: System, t: Tid, e: Event)
    requires Base(s) && Enabled(s, Do(t, e)) && !IsOwn(e)
    ensures LocalsSane(Apply(s, Do(t, e)))
  {
    QuietShapeHolds(s, t, e);
    assert LocalSane(LocalOf(s, t));
    QuietNextSane(LocalOf(s, t), e);
  }

  lemma QuietServer(s: System, t: Tid, e: Event)
    requires LocalsSane(s) && Enabled(s, Do(t, e)) && !IsOwn(e)
    ensures var l' := Apply(s, Do(t, e)).threads[t]; l'.server == LocalOf(s, t).server || !l'.own.loaded
  {
  }

  lemma QuietStep(s: System, t: Tid, e: Event)
    requires Base(s) && Enabled(s, Do(t, e)) && !IsOwn(e) && Orderly(s, Do(t, e))
    ensures Base(Apply(s, Do(t, e)))
  {
    var s' := Apply(s, Do(t, e));
    QuietShapeHolds(s, t, e);
    QuietLocks(s, t, e);
    QuietPreExec(s, t, e);
    QuietLocals(s, t, e);
    QuietServer(s, t, e);
    QuietKeeps(s, s', t);
  }

  // ----- processes and crashes -----

  ghost predicate Fresh(s: System, pid: nat, p: Proc) {
    && pid !in s.world.procs && (pid, p.startedAt) !in s.world.used && p.serial == s.world.next
    && forall t :: t in s.threads && s.threads[t].own.child.Some? && s.threads[t].own.child.value.started.None?
         ==> s.threads[t].own.child.value.pid != pid
  }

  /** A new process is nobody's recorded process. */
  lemma StartLive(w: World, pid: nat, p: Proc, o: ServerId)
    requires ProcsSane(w) && pid !in w.procs && p.serial == w.next
    ensures OwnLive(Start(w, pid, p), o) == OwnLive(w, o)
  {
  }

  lemma StartLocals(s: System, pid: nat, p: Proc, t: Tid)
    requires ProcsSane(s.world) && ChildrenSane(s) && RecordsAgree(s) && Fresh(s, pid, p) && t in s.threads
    ensures OwnChildSane(Start(s.world, pid, p), s.threads[t].own)
    ensures s.threads[t].server.Some? ==>
              RecordAgrees(Start(s.world, pid, p), s.threads[t].server.value, s.threads[t].own)
  {
    var l := s.threads[t];
    assert OwnChildSane(s.world, l.own);
    assert l.server.Some? ==> RecordAgrees(s.world, l.server.value, l.own);
    forall o ensures OwnLive(Start(s.world, pid, p), o) == OwnLive(s.world, o) { StartLive(s.world, pid, p, o); }
  }

  lemma StartWorld(s: System, s': System, pid: nat, p: Proc)
    requires Base(s) && Fresh(s, pid, p) && s'.world == Start(s.world, pid, p) && s'.threads == s.threads
    ensures LocksAgree(s') && ProcsSane(s'.world) && PreExecHeld(s') && Identified(s'.world)
  {
    forall o ensures OwnLive(s'.world, o) == OwnLive(s.world, o) { StartLive(s.world, pid, p, o); }
    forall o | OwnLive(s'.world, o) && !s'.world.procs[s'.world.records[o].pid].execed ensures PreExec(s', o) {
      assert PreExec(s, o);
    }
  }

  lemma StartKeeps(s: System, s': System, pid: nat, p: Proc)
    requires Base(s) && Fresh(s, pid, p) && s'.world == Start(s.world, pid, p) && s'.threads == s.threads
    ensures Base(s')
  {
    StartWorld(s, s', pid, p);
    forall t | t in s'.threads
      ensures OwnChildSane(s'.world, s'.threads[t].own)
      ensures s'.threads[t].server.Some? ==> RecordAgrees(s'.world, s'.threads[t].server.value, s'.threads[t].own)
    {
      StartLocals(s, pid, p, t);
    }
  }

  /** Giving the spawned process to its operation. */
  lemma SpawnKeeps(s: System, t: Tid, pid: nat, command: Args, startedAt: int)
    requires Base(s) && Enabled(s, SpawnAt(t, pid, command, startedAt))
             && Orderly(s, SpawnAt(t, pid, command, startedAt))
    ensures Base(Apply(s, SpawnAt(t, pid, command, startedAt)))
  {
    var p := Proc(startedAt, command, false, s.world.next);
    var m := System(Start(s.world, pid, p), s.threads);
    var s' := Apply(s, SpawnAt(t, pid, command, startedAt));
    assert Fresh(s, pid, p);
    StartKeeps(s, m, pid, p);
    assert t in s.threads;
    Adopt(m, s', t, Child(pid, command, s.world.next, None));
  }

  /** The operation with the process it has just spawned. */
  function Adopted(l: Local, c: Child): Local {
    l.(own := l.own.(verified := false, child := Some(c)))
  }

  lemma Adopt(s: System, s': System, t: Tid, c: Child)
    requires Base(s) && t in s.threads && s.threads[t].server.Some?
    requires s.threads[t].own.loaded && s.threads[t].own.record.None? && s.threads[t].own.child.None?
    requires s.threads[t].survey.Survey? && s.threads[t].survey.listed.Some? && s.threads[t].survey.check.Idle?
    requires ChildSane(s.world, c) && s'.world == s.world
    requires s'.threads == s.threads[t := Adopted(s.threads[t], c)]
    ensures Base(s')
  {
    var l := s.threads[t];
    assert LocalSane(l) && OwnChildSane(s.world, l.own);
    assert RecordAgrees(s.world, l.server.value, l.own);
    forall o | OwnLive(s'.world, o) && !s'.world.procs[s'.world.records[o].pid].execed ensures PreExec(s', o) {
      assert PreExec(s, o);
    }
  }

  lemma ExecKeeps(s: System, pid: nat)
    requires Base(s) && Enabled(s, Exec(pid))
    ensures Base(Apply(s, Exec(pid)))
  {
    var s' := Apply(s, Exec(pid));
    forall o ensures OwnLive(s'.world, o) == OwnLive(s.world, o) {}
    forall o | OwnLive(s'.world, o) && !s'.world.procs[s'.world.records[o].pid].execed ensures PreExec(s', o) {
      assert PreExec(s, o);
    }
    forall t | t in s'.threads
      ensures OwnChildSane(s'.world, s'.threads[t].own)
      ensures s'.threads[t].server.Some? ==> RecordAgrees(s'.world, s'.threads[t].server.value, s'.threads[t].own)
    {
      ProcessGone(s.world, s'.world, s.threads[t]);
    }
  }

  lemma ExitKeeps(s: System, pid: nat)
    requires Base(s) && Enabled(s, Exit(pid))
    ensures Base(Apply(s, Exit(pid)))
  {
    var s' := Apply(s, Exit(pid));
    forall o | OwnLive(s'.world, o) ensures OwnLive(s.world, o) {}
    forall o | OwnLive(s'.world, o) && !s'.world.procs[s'.world.records[o].pid].execed ensures PreExec(s', o) {
      assert PreExec(s, o);
    }
    forall t | t in s'.threads
      ensures OwnChildSane(s'.world, s'.threads[t].own)
      ensures s'.threads[t].server.Some? ==> RecordAgrees(s'.world, s'.threads[t].server.value, s'.threads[t].own)
    {
      assert OwnChildSane(s.world, s.threads[t].own);
      assert s.threads[t].server.Some? ==> RecordAgrees(s.world, s.threads[t].server.value, s.threads[t].own);
      ProcessGone(s.world, s'.world, s.threads[t]);
    }
  }

  /** Processes ended or reached exec, and nothing else happened. */
  ghost predicate OnlyEnded(w: World, w': World) {
    && w' == w.(procs := w'.procs)
    && forall p :: p in w'.procs ==>
                     && p in w.procs && w'.procs[p].(execed := w.procs[p].execed) == w.procs[p]
                     && (w.procs[p].execed ==> w'.procs[p].execed)
  }

  /** What an operation knows of its process survives processes exiting or reaching exec. */
  lemma ProcessGone(w: World, w': World, l: Local)
    requires OwnChildSane(w, l.own) && OnlyEnded(w, w')
    requires l.server.Some? ==> RecordAgrees(w, l.server.value, l.own)
    ensures OwnChildSane(w', l.own)
    ensures l.server.Some? ==> RecordAgrees(w', l.server.value, l.own)
  {
    forall o | OwnLive(w', o) ensures OwnLive(w, o) {}
  }

  lemma CrashKeeps(s: System, t: Tid)
    requires Base(s) && Orderly(s, Crash(t))
    ensures Base(Apply(s, Crash(t)))
  {
    var s' := Apply(s, Crash(t));
    CrashLocks(s, t);
    assert QuietShape(s, s', t);
    QuietKeeps(s, s', t);
    forall o | OwnLive(s'.world, o) && !s'.world.procs[s'.world.records[o].pid].execed ensures PreExec(s', o) {
      CrashPreExec(s, t, o);
    }
  }

  lemma CrashLocks(s: System, t: Tid)
    requires LocksAgree(s) && LocalsSane(s)
    ensures LocksAgree(Apply(s, Crash(t))) && LocalsSane(Apply(s, Crash(t)))
  {
  }

  lemma CrashPreExec(s: System, t: Tid, o: ServerId)
    requires LocksAgree(s) && ChildrenSane(s) && PreExecHeld(s) && ExecBeforeRelease(s, Crash(t))
    requires OwnLive(s.world, o) && !s.world.procs[s.world.records[o].pid].execed
    ensures PreExec(Apply(s, Crash(t)), o)
  {
    assert PreExec(s, o);
    var u := s.world.mountLocks[o];
    assert OwnChildSane(s.world, s.threads[u].own);
    if u == t {
      assert false;
    }
  }

  // ----- whole runs -----

  /** Every action that an orderly environment allows keeps the base invariant, races or not. */
  lemma StepKeepsBase(s: System, a: Action)
    requires Base(s) && Enabled(s, a) && Orderly(s, a)
    ensures Base(Apply(s, a))
  {
    match a {
      case Do(t, e) => if IsOwn(e) { OwnStep(s, t, e); } else { QuietStep(s, t, e); }
      case SpawnAt(t, pid, command, startedAt) => SpawnKeeps(s, t, pid, command, startedAt);
      case Exec(pid) => ExecKeeps(s, pid);
      case Exit(pid) => ExitKeeps(s, pid);
      case Stranger(pid, p) => StartKeeps(s, Apply(s, a), pid, p);
      case Crash(t) => CrashKeeps(s, t);
    }
  }

  ghost predicate OrderlyRun(run: seq<System>, actions: seq<Action>) {
    && IsRun(run, actions)
    && forall i :: 0 <= i < |actions| ==> Orderly(run[i], actions[i])
  }

  lemma LastStep(run: seq<System>, actions: seq<Action>, n: nat)
    requires IsRun(run, actions) && 0 < n < |run|
    ensures Enabled(run[n - 1], actions[n - 1]) && run[n] == Apply(run[n - 1], actions[n - 1])
    ensures var a := actions[n - 1];
      a.Do? && a.event.Observe? ==> HonestSnapshot(run[n - 1].world, a.event.pid, a.event.snapshot)
  {
    assert StepAt(run, actions, n - 1);
  }

  lemma {:induction false} RunKeepsBase(run: seq<System>, actions: seq<Action>, n: nat)
    requires OrderlyRun(run, actions) && Initial(run[0]) && n < |run|
    ensures Base(run[n])
  {
    if n > 0 {
      RunKeepsBase(run, actions, n - 1);
      LastStep(run, actions, n);
      StepKeepsBase(run[n - 1], actions[n - 1]);
    }
  }
}
