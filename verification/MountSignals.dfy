/** What every orderly run does to processes and records: when a record goes, and whom signals and
    quit requests reach. */
module MountSignals {
  import opened Common
  import opened Process
  import opened MountProtocol
  import opened MountInvariant

  /** No operation ever removes the record of a process that is still running: not when its argv
      cannot be read, and not while it has yet to reach exec. */
  lemma RemovalOnlyWhenGone(run: seq<System>, actions: seq<Action>, n: nat, t: Tid)
    requires OrderlyRun(run, actions) && Initial(run[0])
    requires n < |actions| && actions[n] == Do(t, Remove(true))
    ensures t in run[n].threads && run[n].threads[t].server.Some?
    ensures !OwnLive(run[n].world, run[n].threads[t].server.value)
  {
    RunKeepsBase(run, actions, n);
    LastStep(run, actions, n + 1);
    var l := LocalOf(run[n], t);
    assert t in run[n].threads && LocalSane(l);
    assert RecordAgrees(run[n].world, l.server.value, l.own);
  }

  /** The process `pid` named at `j` is the one it names at `n`, unless it exited in between. */
  lemma {:induction false} ProcessStays(run: seq<System>, actions: seq<Action>, j: nat, n: nat, pid: nat)
    requires IsRun(run, actions) && j <= n < |run| && pid in run[j].world.procs
    requires forall i :: j <= i < n ==> actions[i] != Exit(pid)
    ensures pid in run[n].world.procs
    ensures run[n].world.procs[pid].(execed := run[j].world.procs[pid].execed) == run[j].world.procs[pid]
    ensures run[j].world.procs[pid].execed ==> run[n].world.procs[pid].execed
    decreases n - j
  {
    if j < n {
      ProcessStays(run, actions, j, n - 1, pid);
      LastStep(run, actions, n);
      OtherPidUntouched(run[n - 1], actions[n - 1], pid);
    }
  }

  lemma OtherPidUntouched(s: System, a: Action, pid: nat)
    requires Enabled(s, a) && pid in s.world.procs && a != Exit(pid)
    ensures var p := Apply(s, a).world.procs;
      pid in p && p[pid].(execed := s.world.procs[pid].execed) == s.world.procs[pid]
      && (s.world.procs[pid].execed ==> p[pid].execed)
  {
    if a.Do? { EffectFrame(s.world, a.thread, LocalOf(s, a.thread), a.event); }
  }

  /** The verification a signal relies on: a snapshot of the operation's own. */
  ghost predicate VerifiedAt(run: seq<System>, actions: seq<Action>, j: nat, t: Tid, state: MountState)
    requires j < |actions| && j < |run|
  {
    && actions[j].Do? && actions[j].thread == t && actions[j].event.Observe?
    && actions[j].event.pid == state.pid
    && Verified(state, actions[j].event.snapshot, WINDOWS)
    && HonestSnapshot(run[j].world, state.pid, actions[j].event.snapshot)
  }

  lemma {:induction false} VerifiedOrigin(run: seq<System>, actions: seq<Action>, n: nat, t: Tid, state: MountState)
    returns (j: nat)
    requires IsRun(run, actions) && Initial(run[0]) && n < |run|
    requires LocalOf(run[n], t).own.verified && LocalOf(run[n], t).own.record == Some(state)
    ensures j < n && VerifiedAt(run, actions, j, t, state)
    ensures forall i :: j < i < n ==> !ActsFor(actions[i], t)
  {
    if n == 0 {
      assert false;
    }
    var s, a := run[n - 1], actions[n - 1];
    LastStep(run, actions, n);
    if a.Do? && a.thread == t && a.event.Observe? {
      j := n - 1;
      ObserveStep(s, t, a.event);
    } else {
      VerifiedUntouched(s, a, t);
      OnlyOthersSince(s, a, t);
      j := VerifiedOrigin(run, actions, n - 1, t, state);
    }
  }

  lemma ObserveStep(s: System, t: Tid, e: Event)
    requires e.Observe? && HonestSnapshot(s.world, e.pid, e.snapshot)
    requires LocalOf(Apply(s, Do(t, e)), t).own.verified && LocalOf(Apply(s, Do(t, e)), t).own.record.Some?
    ensures var r := LocalOf(Apply(s, Do(t, e)), t).own.record.value;
      e.pid == r.pid && Verified(r, e.snapshot, WINDOWS) && HonestSnapshot(s.world, r.pid, e.snapshot)
  {
    ObserveVerifies(LocalOf(s, t), e);
  }

  lemma ObserveVerifies(l: Local, e: Event)
    requires e.Observe? && Next(l, e).own.verified && Next(l, e).own.record.Some?
    ensures e.pid == Next(l, e).own.record.value.pid && Verified(Next(l, e).own.record.value, e.snapshot, WINDOWS)
  {
  }

  /** The thread an action belongs to, if any. */
  predicate ActsFor(a: Action, t: Tid) {
    (a.Do? && a.thread == t) || (a.SpawnAt? && a.thread == t) || (a.Crash? && a.thread == t)
  }

  lemma OthersKnowTheSame(s: System, a: Action, t: Tid)
    requires !ActsFor(a, t)
    ensures LocalOf(Apply(s, a), t) == LocalOf(s, t)
  {
  }

  lemma NextUnverified(l: Local, e: Event)
    requires !e.Observe?
    ensures !Next(l, e).own.verified || Next(l, e).own == l.own
  {
  }

  lemma VerifiedUntouched(s: System, a: Action, t: Tid)
    requires LocalOf(Apply(s, a), t).own.verified
    requires !(a.Do? && a.thread == t && a.event.Observe?)
    ensures LocalOf(s, t).own.verified && LocalOf(Apply(s, a), t).own.record == LocalOf(s, t).own.record
  {
    if a.Do? && a.thread == t {
      NextUnverified(LocalOf(s, t), a.event);
    } else if a.SpawnAt? && a.thread == t {
      NextUnverified(LocalOf(s, t), Spawn(a.pid, a.command, s.world.next));
    } else if !ActsFor(a, t) {
      OthersKnowTheSame(s, a, t);
    }
  }

  /** Whatever else the operation does itself ends the verification. */
  lemma OnlyOthersSince(s: System, a: Action, t: Tid)
    requires Enabled(s, a) && LocalOf(Apply(s, a), t).own.verified
    requires !(a.Do? && a.thread == t && a.event.Observe?)
    ensures !ActsFor(a, t)
  {
  }

  /** The last thing an operation did before a signal was a snapshot whose start time and argv fit
      the record, and the signal reaches that very process unless it exited in the meantime. */
  lemma SignalsOnlyTheVerified(run: seq<System>, actions: seq<Action>, n: nat, t: Tid, pid: nat, force: bool)
    returns (j: nat)
    requires IsRun(run, actions) && Initial(run[0])
    requires n < |actions| && actions[n] == Do(t, Kill(pid, force))
    ensures LocalOf(run[n], t).own.record.Some?
    ensures var r := LocalOf(run[n], t).own.record.value;
      && pid == r.pid && j < n && VerifiedAt(run, actions, j, t, r)
      && (forall i :: j < i < n ==> !ActsFor(actions[i], t))
      && ((forall i :: j <= i < n ==> actions[i] != Exit(pid)) ==>
            && pid in run[n].world.procs && run[n].world.procs[pid].execed
            && ArgvMatches(run[n].world.procs[pid].command, r, WINDOWS)
            && StartTimeMatches(r, ProcessSnapshot(None, run[n].world.procs[pid].startedAt)))
  {
    var l := LocalOf(run[n], t);
    LastStep(run, actions, n + 1);
    var r := l.own.record.value;
    j := VerifiedOrigin(run, actions, n, t, r);
    var snapshot := actions[j].event.snapshot.value;
    if !run[j].world.procs[pid].execed {
      NotMountNeverMatches(snapshot.arguments.value, r);
    }
    if forall i :: j <= i < n ==> actions[i] != Exit(pid) {
      ProcessStays(run, actions, j, n, pid);
    }
  }

  /** The incarnation an operation's record was written for. */
  function OwnSerial(w: World, l: Local): Option<nat> {
    if l.own.child.Some? then Some(l.own.child.value.serial)
    else if l.server.Some? then Lookup(w.owners, l.server.value) else None
  }

  /** The process that a signal meets on delivery is the one the record was written for exactly when
      its PID shows the recorded start time; without one recorded it always meets a stranger. */
  lemma SignalReachesOwn(run: seq<System>, actions: seq<Action>, n: nat, t: Tid, pid: nat, force: bool)
    requires OrderlyRun(run, actions) && Initial(run[0])
    requires n < |actions| && actions[n] == Do(t, Kill(pid, force)) && pid in run[n].world.procs
    ensures LocalOf(run[n], t).own.record.Some?
    ensures LocalOf(run[n], t).own.record.value.startedAt == Some(run[n].world.procs[pid].startedAt)
            <==> OwnSerial(run[n].world, LocalOf(run[n], t)) == Some(run[n].world.procs[pid].serial)
  {
    RunKeepsBase(run, actions, n);
    LastStep(run, actions, n + 1);
    DeliveredToOwn(run[n], t, pid, force);
  }

  lemma DeliveredToOwn(s: System, t: Tid, pid: nat, force: bool)
    requires Base(s) && Enabled(s, Do(t, Kill(pid, force))) && pid in s.world.procs
    ensures LocalOf(s, t).own.record.value.startedAt == Some(s.world.procs[pid].startedAt)
            <==> OwnSerial(s.world, LocalOf(s, t)) == Some(s.world.procs[pid].serial)
  {
    var l := LocalOf(s, t);
    assert t in s.threads && LocalSane(l) && OwnChildSane(s.world, l.own);
    assert RecordAgrees(s.world, l.server.value, l.own);
    if l.own.child.None? && OwnSerial(s.world, l) == Some(s.world.procs[pid].serial) {
      assert OwnLive(s.world, l.server.value);
    }
  }

  /** RC quit is sent only after the PID's start time fitted the record and after the endpoint
      named that PID. */
  lemma QuitOnlyToTheRecorded(run: seq<System>, actions: seq<Action>, n: nat, t: Tid)
    returns (j: nat, k: nat)
    requires IsRun(run, actions) && Initial(run[0])
    requires n < |actions| && actions[n] == Do(t, Quit)
    ensures LocalOf(run[n], t).own.record.Some?
    ensures var r := LocalOf(run[n], t).own.record.value;
      && j < n && actions[j] == Do(t, RcAnswer(Some(r.pid)))
      && k < n && actions[k].Do? && actions[k].thread == t && StartSeen(actions[k].event, r)
  {
    LastStep(run, actions, n + 1);
    j := AnswerOrigin(run, actions, n, t);
    k := StartOrigin(run, actions, n, t);
  }

  predicate StartSeen(e: Event, r: MountState) {
    e.Observe? && e.pid == r.pid && e.snapshot.Some? && StartTimeMatches(r, e.snapshot.value)
  }

  lemma {:induction false} AnswerOrigin(run: seq<System>, actions: seq<Action>, n: nat, t: Tid) returns (j: nat)
    requires IsRun(run, actions) && Initial(run[0]) && n < |run|
    requires LocalOf(run[n], t).own.rcOk && LocalOf(run[n], t).own.record.Some?
    ensures j < n && actions[j] == Do(t, RcAnswer(Some(LocalOf(run[n], t).own.record.value.pid)))
  {
    if n == 0 {
      assert false;
    }
    LastStep(run, actions, n);
    if actions[n - 1] == Do(t, RcAnswer(Some(LocalOf(run[n], t).own.record.value.pid))) {
      j := n - 1;
    } else {
      KnownBefore(run[n - 1], actions[n - 1], t);
      j := AnswerOrigin(run, actions, n - 1, t);
    }
  }

  lemma {:induction false} StartOrigin(run: seq<System>, actions: seq<Action>, n: nat, t: Tid) returns (k: nat)
    requires IsRun(run, actions) && Initial(run[0]) && n < |run|
    requires LocalOf(run[n], t).own.startOk && LocalOf(run[n], t).own.record.Some?
    ensures k < n && actions[k].Do? && actions[k].thread == t
    ensures StartSeen(actions[k].event, LocalOf(run[n], t).own.record.value)
  {
    if n == 0 {
      assert false;
    }
    var a := actions[n - 1];
    LastStep(run, actions, n);
    if a.Do? && a.thread == t && StartSeen(a.event, LocalOf(run[n], t).own.record.value) {
      k := n - 1;
    } else {
      KnownBefore(run[n - 1], a, t);
      k := StartOrigin(run, actions, n - 1, t);
    }
  }

  lemma NextAnswer(o: Own, e: Event)
    requires NextOwn(o, e).rcOk && NextOwn(o, e).record.Some?
    requires e != RcAnswer(Some(NextOwn(o, e).record.value.pid))
    ensures o.rcOk && NextOwn(o, e).record == o.record
  {
    if e.Observe? {
      ObserveAnswer(o.(verified := false), e.pid, e.snapshot);
    }
  }

  lemma ObserveAnswer(o: Own, pid: nat, snapshot: Option<ProcessSnapshot>)
    ensures NextObserve(o, pid, snapshot).record == o.record
    ensures NextObserve(o, pid, snapshot).rcOk ==> o.rcOk
  {
  }

  lemma NextStart(o: Own, e: Event)
    requires NextOwn(o, e).startOk && NextOwn(o, e).record.Some?
    requires !StartSeen(e, NextOwn(o, e).record.value)
    ensures o.startOk && NextOwn(o, e).record == o.record
  {
    if e.Observe? {
      ObserveStart(o.(verified := false), e.pid, e.snapshot);
    }
  }

  lemma ObserveStart(o: Own, pid: nat, snapshot: Option<ProcessSnapshot>)
    ensures NextObserve(o, pid, snapshot).record == o.record
    ensures NextObserve(o, pid, snapshot).startOk && !o.startOk ==>
              o.record.Some? && StartSeen(Observe(pid, snapshot), o.record.value)
  {
  }

  lemma LocalBefore(l: Local, e: Event)
    requires Allowed(l, e) && Next(l, e).own.record.Some?
    ensures Next(l, e).own == NextOwn(l.own, e)
  {
  }

  /** Facts about the record were known before the action unless the action established them. */
  lemma KnownBefore(s: System, a: Action, t: Tid)
    requires Enabled(s, a) && LocalOf(Apply(s, a), t).own.record.Some?
    ensures var o, o' := LocalOf(s, t).own, LocalOf(Apply(s, a), t).own;
      && (o'.rcOk && a != Do(t, RcAnswer(Some(o'.record.value.pid))) ==> o.rcOk && o'.record == o.record)
      && (o'.startOk && !(a.Do? && a.thread == t && StartSeen(a.event, o'.record.value)) ==>
          o.startOk && o'.record == o.record)
  {
    if a.Do? && a.thread == t {
      KnownBeforeEvent(LocalOf(s, t), a.event);
    } else if a.SpawnAt? && a.thread == t {
      KnownBeforeEvent(LocalOf(s, t), Spawn(a.pid, a.command, s.world.next));
    } else if !ActsFor(a, t) {
      OthersKnowTheSame(s, a, t);
    }
  }

  lemma KnownBeforeEvent(l: Local, e: Event)
    requires Allowed(l, e) && Next(l, e).own.record.Some?
    ensures var o, o' := l.own, Next(l, e).own;
      && (o'.rcOk && e != RcAnswer(Some(o'.record.value.pid)) ==> o.rcOk && o'.record == o.record)
      && (o'.startOk && !StartSeen(e, o'.record.value) ==> o.startOk && o'.record == o.record)
  {
    LocalBefore(l, e);
    var o' := NextOwn(l.own, e);
    if o'.rcOk && e != RcAnswer(Some(o'.record.value.pid)) { NextAnswer(l.own, e); }
    if o'.startOk && !StartSeen(e, o'.record.value) { NextStart(l.own, e); }
  }
}
