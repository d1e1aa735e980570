/** Mountpoint exclusion: in every interleaving of mount, unmount and cleanup operations with
    processes that start, exec and exit, and with application crashes, and exactly until a survey
    overlooks a live foreign process. */
module MountExclusion {
  import opened Common
  import opened Process
  import opened MountProtocol
  import opened MountInvariant

  /** What the code itself tests: PID, start time and argv of a running process fit the record. */
  predicate MatchLive(w: World, sid: ServerId) {
    && sid in w.records
    && w.records[sid].pid in w.procs
    && StartTimeMatches(w.records[sid], ProcessSnapshot(None, w.procs[w.records[sid].pid].startedAt))
    && w.procs[w.records[sid].pid].execed
    && ArgvMatches(w.procs[w.records[sid].pid].command, w.records[sid], WINDOWS)
  }

  predicate OwnLiveAt(w: World, sid: ServerId, key: string) {
    OwnLive(w, sid) && Key(w.records[sid]) == key
  }

  /** What a survey has established about one foreign record on its mountpoint. */
  ghost predicate Surveyed(w: World, v: Survey, hasChild: bool, sid: ServerId)
    requires v.Survey? && v.listed.Some? && OwnLive(w, sid)
  {
    && sid in v.listed.value && sid !in v.cleared && !hasChild
    && (v.check.Reading? && v.check.server == sid ==>
          && SameIdentity(v.check.other, w.records[sid])
          && (v.check.other.phase.Starting? || w.procs[w.records[sid].pid].execed))
    && (v.check.Snapped? && v.check.server == sid ==> sid in w.mountLocks)
  }

  ghost predicate SurveyHolds(w: World, l: Local) {
    l.survey.Survey? && l.server.Some? && l.survey.listed.Some? ==>
      forall sid :: sid != l.server.value && OwnLiveAt(w, sid, l.survey.key) ==>
        Surveyed(w, l.survey, l.own.child.Some?, sid)
  }

  ghost predicate Surveys(s: System) {
    forall t :: t in s.threads ==> SurveyHolds(s.world, s.threads[t])
  }

  /** A spawned process can only be recorded while its survey stands. */
  ghost predicate Exclusive(w: World) {
    forall a, b :: OwnLive(w, a) && OwnLive(w, b) && a != b ==> Key(w.records[a]) != Key(w.records[b])
  }

  /** Surveys are right and no two records' processes share a mountpoint. */
  ghost predicate Sealed(s: System) {
    Surveys(s) && Exclusive(s.world)
  }

  ghost predicate Inv(s: System) {
    Base(s) && Sealed(s)
  }

  // ----- where a live foreign process is overlooked -----

  /** `t` gives up its mount lock after `other` saw its recorded process unidentified and before
      `other` probes that lock, while the process runs on the surveyed mountpoint. */
  predicate RacesWith(s: System, a: Action, t: Tid, other: Tid) {
    && t in s.threads && Releases(a, t) && other in s.threads && other != t
    && s.threads[other].survey.Survey? && s.threads[other].survey.check.Snapped?
    && s.threads[t].server == Some(s.threads[other].survey.check.server)
    && OwnLiveAt(s.world, s.threads[other].survey.check.server, s.threads[other].survey.key)
  }

  ghost predicate LiveRace(s: System, a: Action) {
    exists t, other :: RacesWith(s, a, t, other)
  }

  /** The survey of `l` is not shown a live foreign process of its mountpoint: it is missing from
      the listing, its record cannot be read, or its held lock does not show as contended. */
  predicate MissesAt(w: World, l: Local, e: Event, sid: ServerId) {
    && l.survey.Survey? && l.server != Some(sid) && OwnLiveAt(w, sid, l.survey.key)
    && match e
       case List(servers) => sid !in servers
       case ReadOther(o, other) => o == sid && other.None?
       case ProbeLock(held) =>
         l.survey.check.Snapped? && l.survey.check.server == sid && !held && sid in w.mountLocks
       case _ => false
  }

  ghost predicate Misses(s: System, a: Action) {
    a.Do? && exists sid :: MissesAt(s.world, LocalOf(s, a.thread), a.event, sid)
  }

  ghost predicate Overlooks(s: System, a: Action) {
    LiveRace(s, a) || Misses(s, a)
  }

  // ----- one step -----

  lemma OwnExclusive(s: System, s': System, t: Tid, sid: ServerId)
    requires LocalsSane(s) && Surveys(s) && Exclusive(s.world) && OwnShape(s, s', t, sid)
    ensures Exclusive(s'.world)
  {
    forall a, b | OwnLive(s'.world, a) && OwnLive(s'.world, b) && a != b
      ensures Key(s'.world.records[a]) != Key(s'.world.records[b])
    {
      OwnLiveAfter(s, s', t, sid, a);
      OwnLiveAfter(s, s', t, sid, b);
      if a == sid {
        OwnExclusivePair(s, s', t, sid, b);
      } else if b == sid {
        OwnExclusivePair(s, s', t, sid, a);
      }
    }
  }

  lemma OwnExclusivePair(s: System, s': System, t: Tid, sid: ServerId, o: ServerId)
    requires LocalsSane(s) && Surveys(s) && Exclusive(s.world) && OwnShape(s, s', t, sid)
    requires o != sid && OwnLive(s'.world, sid) && OwnLive(s'.world, o) && OwnLive(s.world, o)
    requires s'.world.records[o] == s.world.records[o]
    ensures Key(s'.world.records[sid]) != Key(s'.world.records[o])
  {
    var l := s.threads[t];
    assert LocalSane(l) && SurveyHolds(s.world, l);
    OwnLiveAfter(s, s', t, sid, sid);
    if !(OwnLive(s.world, sid) && Key(s.world.records[sid]) == Key(s'.world.records[sid])) {
      assert Written(s.world, s'.world, l, sid);
      assert l.survey.Survey? && l.survey.key == Key(s'.world.records[sid]);
      assert OwnLiveAt(s.world, o, l.survey.key) <==> Key(s.world.records[o]) == l.survey.key;
    }
  }

  /** A survey by `u` still holds: only the holder of the allocation lock records a new process. */
  lemma OwnSurvey(s: System, s': System, t: Tid, sid: ServerId, u: Tid)
    requires LocksAgree(s) && LocalsSane(s) && Surveys(s) && OwnShape(s, s', t, sid) && u in s.threads
    ensures SurveyHolds(s'.world, s'.threads[u])
  {
    var l := s.threads[u];
    assert SurveyHolds(s.world, l) && LocalSane(s.threads[t]);
    if l.survey.Survey? && l.server.Some? && l.survey.listed.Some? {
      forall o | o != l.server.value && OwnLiveAt(s'.world, o, l.survey.key)
        ensures Surveyed(s'.world, l.survey, s'.threads[u].own.child.Some?, o)
      {
        OwnLiveAfter(s, s', t, sid, o);
        assert u != t || o != sid;
        assert OwnLiveAt(s.world, o, l.survey.key);
        assert Surveyed(s.world, l.survey, l.own.child.Some?, o);
      }
    }
  }

  lemma OwnSealed(s: System, s': System, t: Tid, sid: ServerId)
    requires LocksAgree(s) && LocalsSane(s) && Sealed(s) && OwnShape(s, s', t, sid)
    ensures Sealed(s')
  {
    OwnExclusive(s, s', t, sid);
    forall u | u in s'.threads ensures SurveyHolds(s'.world, s'.threads[u]) {
      OwnSurvey(s, s', t, sid, u);
    }
  }

  /** One step of a survey keeps it right. */
  lemma NextSurveyHolds(s: System, t: Tid, e: Event)
    requires Inv(s) && Enabled(s, Do(t, e)) && AllowedSurvey(LocalOf(s, t).survey, e)
    requires !IsOwn(e) && t in s.threads && s.threads[t].server.Some? && !Misses(s, Do(t, e))
    ensures SurveyHolds(s.world, Next(s.threads[t], e))
  {
    var l := s.threads[t];
    var m := Next(l, e);
    assert LocalSane(l) && SurveyHolds(s.world, l);
    if m.survey.Survey? && m.survey.listed.Some? {
      forall o | o != l.server.value && OwnLiveAt(s.world, o, m.survey.key)
        ensures Surveyed(s.world, m.survey, m.own.child.Some?, o)
      {
        assert !s.world.procs[s.world.records[o].pid].execed ==> PreExec(s, o);
        assert !MissesAt(s.world, l, e, o);
        NextSurveyed(s.world, t, l, e, o);
      }
    }
  }

  lemma NextSurveyed(w: World, t: Tid, l: Local, e: Event, o: ServerId)
    requires Identified(w) && ProcsSane(w) && LocalSane(l)
    requires Allowed(l, e) && AllowedSurvey(l.survey, e) && Possible(w, t, l, e) && !e.UnlockAllocation?
    requires l.server.Some? && o != l.server.value && OwnLiveAt(w, o, l.survey.key)
    requires !w.procs[w.records[o].pid].execed ==> w.records[o].phase.Starting? && o in w.mountLocks
    requires !MissesAt(w, l, e, o)
    requires l.survey.listed.Some? ==> Surveyed(w, l.survey, l.own.child.Some?, o)
    ensures Surveyed(w, NextSurvey(l.server, l.survey, e), l.own.child.Some?, o)
  {
    if e.ObserveOther? && l.survey.check.server == o {
      ObserveOtherSound(w, l.survey.check.other, o, e.snapshot);
    }
  }

  /** A snapshot that does not identify a live recorded process was taken before its exec. */
  lemma ObserveOtherSound(w: World, other: MountState, o: ServerId, snapshot: Option<ProcessSnapshot>)
    requires Identified(w) && OwnLive(w, o) && SameIdentity(other, w.records[o])
    requires HonestSnapshot(w, other.pid, snapshot)
    ensures w.procs[w.records[o].pid].execed ==> MayBeOwned(other, snapshot, WINDOWS)
  {
    PhaseIrrelevant(w.procs[w.records[o].pid].command, other, w.records[o]);
  }

  lemma QuietSurveys(s: System, t: Tid, e: Event)
    requires Inv(s) && Enabled(s, Do(t, e)) && !IsOwn(e) && !Overlooks(s, Do(t, e))
    ensures Surveys(Apply(s, Do(t, e)))
  {
    var s' := Apply(s, Do(t, e));
    QuietShapeHolds(s, t, e);
    forall u | u in s'.threads ensures SurveyHolds(s'.world, s'.threads[u]) {
      if u == t {
        QuietOwnSurvey(s, t, e);
      } else {
        QuietOtherSurvey(s, t, e, u);
      }
    }
  }

  lemma QuietOwnSurvey(s: System, t: Tid, e: Event)
    requires Inv(s) && Enabled(s, Do(t, e)) && !IsOwn(e) && !Misses(s, Do(t, e))
    ensures SurveyHolds(Apply(s, Do(t, e)).world, Next(LocalOf(s, t), e))
  {
    var s' := Apply(s, Do(t, e));
    QuietShapeHolds(s, t, e);
    var l := LocalOf(s, t);
    if AllowedSurvey(l.survey, e) && t in s.threads {
      assert LocalSane(l);
      NextSurveyHolds(s, t, e);
      SurveyFrame(s.world, s'.world, Next(l, e));
    } else if t in s.threads && (e.Ready? || e.Clock?) {
      assert SurveyHolds(s.world, l);
      assert s'.world == s.world;
    }
  }

  /** A survey depends on the mount locks only through those it still has to probe. */
  lemma SurveyFrame(w: World, w': World, l: Local)
    requires SurveyHolds(w, l)
    requires w'.procs == w.procs && w'.records == w.records && w'.owners == w.owners
    requires l.survey.Survey? && l.survey.check.Snapped? && OwnLiveAt(w, l.survey.check.server, l.survey.key) ==>
               (l.survey.check.server in w.mountLocks ==> l.survey.check.server in w'.mountLocks)
    ensures SurveyHolds(w', l)
  {
    if l.survey.Survey? && l.server.Some? && l.survey.listed.Some? {
      forall o | o != l.server.value && OwnLiveAt(w', o, l.survey.key)
        ensures Surveyed(w', l.survey, l.own.child.Some?, o)
      {
        assert OwnLiveAt(w, o, l.survey.key);
        assert Surveyed(w, l.survey, l.own.child.Some?, o);
      }
    }
  }

  lemma QuietOtherSurvey(s: System, t: Tid, e: Event, u: Tid)
    requires Inv(s) && Enabled(s, Do(t, e)) && !IsOwn(e) && !LiveRace(s, Do(t, e)) && u in s.threads && u != t
    ensures SurveyHolds(Apply(s, Do(t, e)).world, s.threads[u])
  {
    var s' := Apply(s, Do(t, e));
    QuietShapeHolds(s, t, e);
    var l := s.threads[u];
    assert SurveyHolds(s.world, l);
    assert e.UnlockMount? ==> t in s.threads && Releases(Do(t, e), t);
    assert !RacesWith(s, Do(t, e), t, u);
    SurveyFrame(s.world, s'.world, l);
  }

  lemma QuietSealed(s: System, t: Tid, e: Event)
    requires Inv(s) && Enabled(s, Do(t, e)) && !IsOwn(e) && !Overlooks(s, Do(t, e))
    ensures Sealed(Apply(s, Do(t, e)))
  {
    QuietShapeHolds(s, t, e);
    QuietSurveys(s, t, e);
    SameWorldExclusive(s.world, Apply(s, Do(t, e)).world);
  }

  lemma SameWorldExclusive(w: World, w': World)
    requires Exclusive(w) && w'.procs == w.procs && w'.records == w.records && w'.owners == w.owners
    ensures Exclusive(w')
  {
    forall o ensures OwnLive(w', o) == OwnLive(w, o) {}
  }

  lemma StartSurvey(w: World, pid: nat, p: Proc, l: Local)
    requires ProcsSane(w) && pid !in w.procs && p.serial == w.next && SurveyHolds(w, l)
    ensures SurveyHolds(Start(w, pid, p), l)
  {
    if l.survey.Survey? && l.server.Some? && l.survey.listed.Some? {
      forall o | o != l.server.value && OwnLiveAt(Start(w, pid, p), o, l.survey.key)
        ensures Surveyed(Start(w, pid, p), l.survey, l.own.child.Some?, o)
      {
        StartLive(w, pid, p, o);
        assert OwnLiveAt(w, o, l.survey.key);
        assert Surveyed(w, l.survey, l.own.child.Some?, o);
      }
    }
  }

  lemma StartSealed(s: System, s': System, pid: nat, p: Proc)
    requires Inv(s) && Fresh(s, pid, p) && s'.world == Start(s.world, pid, p) && s'.threads == s.threads
    ensures Sealed(s')
  {
    forall o ensures OwnLive(s'.world, o) == OwnLive(s.world, o) { StartLive(s.world, pid, p, o); }
    forall t | t in s'.threads ensures SurveyHolds(s'.world, s'.threads[t]) {
      assert SurveyHolds(s.world, s.threads[t]);
      StartSurvey(s.world, pid, p, s.threads[t]);
    }
  }

  lemma SpawnSealed(s: System, t: Tid, pid: nat, command: Args, startedAt: int)
    requires Inv(s) && Enabled(s, SpawnAt(t, pid, command, startedAt))
             && Orderly(s, SpawnAt(t, pid, command, startedAt))
    ensures Sealed(Apply(s, SpawnAt(t, pid, command, startedAt)))
  {
    var p := Proc(startedAt, command, false, s.world.next);
    var m := System(Start(s.world, pid, p), s.threads);
    assert Fresh(s, pid, p);
    StartSealed(s, m, pid, p);
    assert t in s.threads && LocalSane(s.threads[t]);
    AdoptSealed(m, Apply(s, SpawnAt(t, pid, command, startedAt)), t, Child(pid, command, s.world.next, None));
  }

  /** Every listed record was cleared, so no live process is left that could be overlooked. */
  lemma AdoptSealed(s: System, s': System, t: Tid, c: Child)
    requires Sealed(s) && t in s.threads && s.threads[t].server.Some? && s'.world == s.world
    requires s.threads[t].survey.Survey? && s.threads[t].survey.listed.Some?
    requires forall o :: o in s.threads[t].survey.listed.value && o != s.threads[t].server.value ==>
               o in s.threads[t].survey.cleared
    requires s'.threads == s.threads[t := Adopted(s.threads[t], c)]
    ensures Sealed(s')
  {
    var l := s.threads[t];
    forall u | u in s'.threads ensures SurveyHolds(s'.world, s'.threads[u]) {
      assert SurveyHolds(s.world, s.threads[u]);
      if u == t {
        forall o | o != l.server.value ensures !OwnLiveAt(s.world, o, l.survey.key) {}
      }
    }
  }

  lemma EndedSealed(s: System, s': System)
    requires Sealed(s) && OnlyEnded(s.world, s'.world) && s'.threads == s.threads
    ensures Sealed(s')
  {
    forall o | OwnLive(s'.world, o) ensures OwnLive(s.world, o) {}
    forall t | t in s'.threads ensures SurveyHolds(s'.world, s'.threads[t]) {
      assert SurveyHolds(s.world, s.threads[t]);
      EndedSurvey(s.world, s'.world, s.threads[t]);
    }
  }

  lemma EndedSurvey(w: World, w': World, l: Local)
    requires SurveyHolds(w, l) && OnlyEnded(w, w')
    ensures SurveyHolds(w', l)
  {
    if l.survey.Survey? && l.server.Some? && l.survey.listed.Some? {
      forall o | o != l.server.value && OwnLiveAt(w', o, l.survey.key)
        ensures Surveyed(w', l.survey, l.own.child.Some?, o)
      {
        assert OwnLiveAt(w, o, l.survey.key);
        assert Surveyed(w, l.survey, l.own.child.Some?, o);
      }
    }
  }

  lemma CrashSurvey(s: System, t: Tid, u: Tid)
    requires LocksAgree(s) && Surveys(s) && !LiveRace(s, Crash(t)) && u in Apply(s, Crash(t)).threads
    ensures SurveyHolds(Apply(s, Crash(t)).world, Apply(s, Crash(t)).threads[u])
  {
    if u != t {
      assert SurveyHolds(s.world, s.threads[u]) && !RacesWith(s, Crash(t), t, u);
      SurveyFrame(s.world, Apply(s, Crash(t)).world, s.threads[u]);
    }
  }

  lemma CrashSealed(s: System, t: Tid)
    requires Inv(s) && !LiveRace(s, Crash(t))
    ensures Sealed(Apply(s, Crash(t)))
  {
    forall u | u in Apply(s, Crash(t)).threads
      ensures SurveyHolds(Apply(s, Crash(t)).world, Apply(s, Crash(t)).threads[u])
    {
      CrashSurvey(s, t, u);
    }
    SameWorldExclusive(s.world, Apply(s, Crash(t)).world);
  }

  lemma StepSealed(s: System, a: Action)
    requires Inv(s) && Enabled(s, a) && Orderly(s, a) && !Overlooks(s, a)
    ensures Sealed(Apply(s, a))
  {
    match a {
      case Do(t, e) =>
        if IsOwn(e) {
          OwnShapeHolds(s, t, e);
          OwnSealed(s, Apply(s, a), t, s.threads[t].server.value);
        } else {
          QuietSealed(s, t, e);
        }
      case SpawnAt(t, pid, command, startedAt) => SpawnSealed(s, t, pid, command, startedAt);
      case Exec(pid) => EndedSealed(s, Apply(s, a));
      case Exit(pid) => EndedSealed(s, Apply(s, a));
      case Stranger(pid, p) => StartSealed(s, Apply(s, a), pid, p);
      case Crash(t) => CrashSealed(s, t);
    }
  }

  // ----- and nothing less is enough -----

  lemma RaceUnseals(s: System, a: Action, t: Tid, other: Tid)
    requires Base(s) && RacesWith(s, a, t, other)
    ensures !Surveys(Apply(s, a))
  {
    var s' := Apply(s, a);
    var l := s.threads[other];
    var sid := l.survey.check.server;
    assert LocalSane(l) && s'.threads[other] == l;
    assert s.world.mountLocks[sid] == t && sid !in s'.world.mountLocks;
    assert OwnLiveAt(s'.world, sid, l.survey.key) && !Surveyed(s'.world, l.survey, l.own.child.Some?, sid);
    assert !SurveyHolds(s'.world, l);
  }

  lemma MissUnseals(s: System, t: Tid, e: Event, sid: ServerId)
    requires Base(s) && Enabled(s, Do(t, e)) && MissesAt(s.world, LocalOf(s, t), e, sid)
    ensures !Surveys(Apply(s, Do(t, e)))
  {
    var s' := Apply(s, Do(t, e));
    var l := LocalOf(s, t);
    assert t in s.threads && LocalSane(l);
    assert s'.world == s.world && s'.threads[t] == Next(l, e) && Next(l, e).server == l.server;
    var v := Next(l, e).survey;
    assert v.Survey? && v.listed.Some? && v.key == l.survey.key;
    assert OwnLiveAt(s'.world, sid, v.key) && (sid !in v.listed.value || sid in v.cleared);
    assert !SurveyHolds(s'.world, s'.threads[t]);
  }

  /** One step, exactly: an action of an orderly environment keeps the invariant if and only if no
      survey overlooks a live foreign process of its mountpoint by it. */
  lemma StepExact(s: System, a: Action)
    requires Inv(s) && Enabled(s, a) && Orderly(s, a)
    ensures Inv(Apply(s, a)) <==> !Overlooks(s, a)
  {
    if !Overlooks(s, a) {
      StepKeepsBase(s, a);
      StepSealed(s, a);
    } else if LiveRace(s, a) {
      var t, other :| RacesWith(s, a, t, other);
      RaceUnseals(s, a, t, other);
    } else {
      var sid :| MissesAt(s.world, LocalOf(s, a.thread), a.event, sid);
      MissUnseals(s, a.thread, a.event, sid);
    }
  }

  // ----- whole runs -----

  lemma InitialInv(s: System)
    requires Initial(s)
    ensures Inv(s)
  {
  }

  /** No action of the run makes a survey overlook a live foreign process. */
  ghost predicate NothingOverlooked(run: seq<System>, actions: seq<Action>)
    requires |run| == |actions| + 1
  {
    forall i :: 0 <= i < |actions| ==> !Overlooks(run[i], actions[i])
  }

  lemma {:induction false} RunKeeps(run: seq<System>, actions: seq<Action>, n: nat)
    requires OrderlyRun(run, actions) && NothingOverlooked(run, actions) && Initial(run[0]) && n < |run|
    ensures Inv(run[n])
  {
    if n == 0 {
      InitialInv(run[0]);
    } else {
      RunKeeps(run, actions, n - 1);
      LastStep(run, actions, n);
      StepExact(run[n - 1], actions[n - 1]);
    }
  }

  ghost predicate InvThroughout(run: seq<System>) {
    forall n :: 0 <= n < |run| ==> Inv(run[n])
  }

  lemma NotOverlookedAt(run: seq<System>, actions: seq<Action>, i: nat)
    requires OrderlyRun(run, actions) && i < |actions| && InvThroughout(run)
    ensures !Overlooks(run[i], actions[i])
  {
    LastStep(run, actions, i + 1);
    assert Inv(run[i]) && Inv(run[i + 1]);
    StepExact(run[i], actions[i]);
  }

  /** Whole runs, exactly: the invariant holds all along if and only if nothing was overlooked. */
  lemma RunExact(run: seq<System>, actions: seq<Action>)
    requires OrderlyRun(run, actions) && Initial(run[0])
    ensures InvThroughout(run) <==> NothingOverlooked(run, actions)
  {
    if NothingOverlooked(run, actions) {
      forall n | 0 <= n < |run| ensures Inv(run[n]) { RunKeeps(run, actions, n); }
    }
    if InvThroughout(run) {
      forall i | 0 <= i < |actions| ensures !Overlooks(run[i], actions[i]) {
        NotOverlookedAt(run, actions, i);
      }
    }
  }

  /** Mountpoint exclusion: in no orderly run are the processes of two servers'
      records running on the same mountpoint. */
  lemma MountpointExclusion(run: seq<System>, actions: seq<Action>, n: nat, a: ServerId, b: ServerId)
    requires OrderlyRun(run, actions) && NothingOverlooked(run, actions) && Initial(run[0]) && n < |run|
    requires a != b && OwnLive(run[n].world, a) && OwnLive(run[n].world, b)
    ensures Key(run[n].world.records[a]) != Key(run[n].world.records[b])
  {
    RunKeeps(run, actions, n);
  }

  lemma MatchDecides(w: World, sid: ServerId)
    requires ProcsSane(w) && Identified(w) && MatchLive(w, sid)
    ensures OwnLive(w, sid) <==> w.records[sid].startedAt.Some?
  {
  }

  /** In every orderly run a running process that fits a record is the one it was written for
      exactly when the record carries a start time: without one, what fits is a stranger. */
  lemma MatchIsOwn(run: seq<System>, actions: seq<Action>, n: nat, sid: ServerId)
    requires OrderlyRun(run, actions) && Initial(run[0]) && n < |run| && MatchLive(run[n].world, sid)
    ensures OwnLive(run[n].world, sid) <==> run[n].world.records[sid].startedAt.Some?
  {
    RunKeepsBase(run, actions, n);
    MatchDecides(run[n].world, sid);
  }

  /** The same exclusion over the test the code itself can make: two servers' records can both fit
      on one mountpoint only if one of them has no start time, and that one fits a stranger. */
  lemma MatchExclusion(run: seq<System>, actions: seq<Action>, n: nat, a: ServerId, b: ServerId)
    requires OrderlyRun(run, actions) && NothingOverlooked(run, actions) && Initial(run[0]) && n < |run|
    requires a != b && MatchLive(run[n].world, a) && MatchLive(run[n].world, b)
    requires Key(run[n].world.records[a]) == Key(run[n].world.records[b])
    ensures exists sid <- {a, b} :: run[n].world.records[sid].startedAt.None? && !OwnLive(run[n].world, sid)
  {
    MatchIsOwn(run, actions, n, a);
    MatchIsOwn(run, actions, n, b);
    if OwnLive(run[n].world, a) && OwnLive(run[n].world, b) {
      MountpointExclusion(run, actions, n, a, b);
      assert false;
    }
    assert a in {a, b} && b in {a, b};
  }
}
