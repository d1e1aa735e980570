/** The runtime's mount, unmount and cleanup as they run, against a machine whose every answer
    is arbitrary. The machine accepts an operation only if the discipline of MountProtocol
    allows it, so verifying these methods ties the code to the interleavings proved safe in
    MountExclusion. */
module MountRuntime {
  import opened Common
  import opened Process
  import opened MountProtocol
  import opened MountTraces

  /** Event `i` of the log was allowed when it happened, and led to the next state of knowledge. */
  ghost predicate Leads(states: seq<Local>, log: seq<Event>, i: nat)
    requires i < |log| && |states| == |log| + 1
  {
    Allowed(states[i], log[i]) && states[i + 1] == Next(states[i], log[i])
  }

  /** The log is one the discipline accepts, from a fresh operation on. */
  ghost predicate Disciplined(states: seq<Local>, log: seq<Event>) {
    && |states| == |log| + 1 && states[0] == FRESH
    && forall i {:trigger Leads(states, log, i)} :: 0 <= i < |log| ==> Leads(states, log, i)
  }

  class Machine {
    ghost var log: seq<Event>
    ghost var states: seq<Local>
    ghost var local: Local
    ghost var faults: nat // locks, reads, writes and other calls that failed
    var clock: int

    ghost predicate Valid()
      reads this
    {
      Disciplined(states, log) && local == states[|log|]
    }

    constructor ()
      ensures Valid() && log == [] && local == FRESH
    {
      log, states, local, clock := [], [FRESH], FRESH, 0;
    }

    ghost method Record(e: Event)
      requires Valid() && Allowed(local, e)
      modifies this`log, this`local, this`states
      ensures Valid() && log == old(log) + [e] && local == Next(old(local), e) && states == old(states) + [local]
    {
      log, states, local := log + [e], states + [Next(local, e)], Next(local, e);
      forall i | 0 <= i < |log| ensures Leads(states, log, i) {
        if i < |old(log)| {
          assert Leads(old(states), old(log), i);
        }
      }
    }

    method LockMount(server: ServerId) returns (ok: bool)
      requires Valid() && local == FRESH
      modifies this
      ensures faults == old(faults) + if ok then 0 else 1
      ensures Valid() && clock >= old(clock)
      ensures log == (if ok then old(log) + [Event.LockMount(server)] else old(log))
      ensures local == if ok then Next(FRESH, Event.LockMount(server)) else FRESH
    {
      ok := *;
      if ok { Record(Event.LockMount(server)); }
      if !ok { faults := faults + 1; }
    }

    method UnlockMount()
      requires Valid() && Allowed(local, Event.UnlockMount)
      modifies this`log, this`states, this`local, this`clock
      ensures Valid() && clock == old(clock) && log == old(log) + [Event.UnlockMount] && local == FRESH
      ensures states == old(states) + [FRESH]
    {
      Record(Event.UnlockMount);
    }

    method LockAllocation(key: string) returns (ok: bool)
      requires Valid() && Allowed(local, Event.LockAllocation(key))
      modifies this
      ensures faults == old(faults) + if ok then 0 else 1
      ensures Valid() && clock >= old(clock)
      ensures log == (if ok then old(log) + [Event.LockAllocation(key)] else old(log))
      ensures local == if ok then Next(old(local), Event.LockAllocation(key)) else old(local)
    {
      ok := *;
      if ok { Record(Event.LockAllocation(key)); }
      if !ok { faults := faults + 1; }
    }

    method UnlockAllocation()
      requires Valid() && Allowed(local, Event.UnlockAllocation)
      modifies this`log, this`states, this`local, this`clock
      ensures Valid() && clock == old(clock)
      ensures log == old(log) + [Event.UnlockAllocation] && local == Next(old(local), Event.UnlockAllocation)
    {
      Record(Event.UnlockAllocation);
    }

    /** `load_state` of the locked server; an error leaves the operation where it was. */
    method LoadState() returns (r: Result<Option<MountState>, ()>)
      requires Valid() && local.server.Some? && !local.own.loaded && local.own.child.None?
      modifies this
      ensures faults == old(faults) + if r.Ok? then 0 else 1
      ensures Valid() && clock == old(clock)
      ensures r.Err? ==> log == old(log) && local == old(local)
      ensures r.Ok? ==> log == old(log) + [Load(r.value)] && local == Next(old(local), Load(r.value))
    {
      r := *;
      if r.Ok? { Record(Load(r.value)); }
      if !r.Ok? { faults := faults + 1; }
    }

    /** A process snapshot; during the reservation test it is of the record under test. */
    method Snapshot(pid: nat) returns (s: Option<ProcessSnapshot>)
      requires Valid() && local.server.Some?
      requires local.survey.Survey? && local.survey.check.Reading? ==> pid == local.survey.check.other.pid
      modifies this`log, this`states, this`local, this`clock
      ensures Valid() && clock == old(clock)
      ensures var e :=
                if old(local).survey.Survey? && old(local).survey.check.Reading? then ObserveOther(s)
                else Observe(pid, s);
        log == old(log) + [e] && local == Next(old(local), e)
    {
      s := *;
      if local.survey.Survey? && local.survey.check.Reading? {
        Record(ObserveOther(s));
      } else {
        Record(Observe(pid, s));
      }
    }

    /** The state files, as far as they can be listed, or nothing when the directory cannot be read. */
    method ListStates() returns (ids: Option<seq<ServerId>>)
      requires Valid() && local.survey.Survey? && local.survey.listed.None? && local.own.child.None?
      modifies this`log, this`states, this`local, this`clock
      ensures Valid() && clock == old(clock)
      ensures var e := List(if ids.Some? then set sid | sid in ids.value else {});
        log == old(log) + [e] && local == Next(old(local), e)
    {
      ids := *;
      Record(List(if ids.Some? then set sid | sid in ids.value else {}));
    }

    method ReadState(sid: ServerId) returns (other: Option<MountState>)
      requires Valid() && Allowed(local, ReadOther(sid, None))
      modifies this`log, this`states, this`local, this`clock
      ensures Valid() && clock == old(clock)
      ensures log == old(log) + [ReadOther(sid, other)] && local == Next(old(local), ReadOther(sid, other))
    {
      other := *;
      Record(ReadOther(sid, other));
    }

    /** Whether the tested server's mount lock is contended. */
    method MountLockContended() returns (held: bool)
      requires Valid() && Allowed(local, ProbeLock(true))
      modifies this`log, this`states, this`local, this`clock
      ensures Valid() && clock == old(clock)
      ensures log == old(log) + [ProbeLock(held)] && local == Next(old(local), ProbeLock(held))
    {
      held := *;
      Record(ProbeLock(held));
    }

    method Spawn(command: Args) returns (r: Result<nat, ()>, ghost serial: nat)
      requires Valid() && Allowed(local, Event.Spawn(0, command, 0))
      modifies this
      ensures faults == old(faults) + if r.Ok? then 0 else 1
      ensures Valid() && clock == old(clock)
      ensures r.Err? ==> log == old(log) && local == old(local)
      ensures r.Ok? ==> log == old(log) + [Event.Spawn(r.value, command, serial)]
                        && local == Next(old(local), Event.Spawn(r.value, command, serial))
    {
      r := *;
      serial := *;
      if r.Ok? { Record(Event.Spawn(r.value, command, serial)); }
      if !r.Ok? { faults := faults + 1; }
    }

    /** An atomic write that reports failure may still have replaced the file. */
    method SaveState(state: MountState) returns (ok: bool, ghost written: bool)
      requires Valid() && Allowed(local, Save(state, true))
      modifies this
      ensures faults == old(faults) + if ok then 0 else 1
      ensures Valid() && clock == old(clock) && (ok ==> written)
      ensures log == old(log) + [Save(state, written)] && local == Next(old(local), Save(state, written))
    {
      ok := *;
      written := *;
      if ok { written := true; }
      Record(Save(state, written));
      if !ok { faults := faults + 1; }
    }

    /** Removes the state file and then the RC password file; either can fail. */
    method RemoveState() returns (ok: bool, ghost removed: bool)
      requires Valid() && Allowed(local, Remove(true))
      modifies this
      ensures faults == old(faults) + if ok then 0 else 1
      ensures Valid() && clock == old(clock) && (ok ==> removed)
      ensures log == old(log) + [Remove(removed)] && local == Next(old(local), Remove(removed))
    {
      ok := *;
      removed := *;
      if ok { removed := true; }
      Record(Remove(removed));
      if !ok { faults := faults + 1; }
    }

    method RcProcessId() returns (answer: Option<nat>)
      requires Valid() && Allowed(local, RcAnswer(None))
      modifies this`log, this`states, this`local, this`clock
      ensures Valid() && clock >= old(clock)
      ensures log == old(log) + [RcAnswer(answer)] && local == Next(old(local), RcAnswer(answer))
    {
      answer := *;
      Record(RcAnswer(answer));
    }

    method RcQuit()
      requires Valid() && Allowed(local, Quit)
      modifies this`log, this`states, this`local, this`clock
      ensures Valid() && clock == old(clock) && log == old(log) + [Quit] && local == Next(old(local), Quit)
    {
      Record(Quit);
    }

    method Kill(pid: nat, force: bool) returns (ok: bool)
      requires Valid() && Allowed(local, Event.Kill(pid, force))
      modifies this`log, this`states, this`local, this`clock
      ensures Valid() && clock == old(clock)
      ensures log == old(log) + [Event.Kill(pid, force)] && local == Next(old(local), Event.Kill(pid, force))
    {
      ok := *;
      Record(Event.Kill(pid, force));
    }

    method MountpointReady() returns (ready: bool)
      requires Valid()
      modifies this`log, this`states, this`local, this`clock
      ensures Valid() && clock == old(clock)
      ensures log == old(log) + [Ready(ready)] && local == Next(old(local), Ready(ready))
    {
      ready := *;
      Record(Ready(ready));
    }

    /** A monotonic clock. */
    method Now() returns (now: int)
      requires Valid()
      modifies this`log, this`states, this`local, this`clock
      ensures Valid() && now == clock >= old(clock)
      ensures log == old(log) + [Clock(now)] && local == Next(old(local), Clock(now))
    {
      var passed := *;
      clock := if passed < 0 then clock else clock + passed;
      now := clock;
      Record(Clock(now));
    }

    method Sleep(interval: nat)
      requires Valid()
      modifies this`clock
      ensures Valid() && clock >= old(clock) + interval
    {
      var late := *;
      clock := if late < 0 then clock + interval else clock + interval + late;
    }

    /** Checking the mountpoint and making the directories. */
    method Prepare() returns (ok: bool)
      modifies this`faults
      ensures faults == old(faults) + if ok then 0 else 1
    {
      ok := *;
      if !ok { faults := faults + 1; }
    }

    method LoopbackAddress() returns (address: Option<string>)
      modifies this`faults
      ensures faults == old(faults) + if address.Some? then 0 else 1
      ensures address.Some? ==> "127.0.0.1:" <= address.value
    {
      var ok := *;
      var port: string := *;
      address := if ok then Some("127.0.0.1:" + port) else None;
      if !ok { faults := faults + 1; }
    }
  }

  /** From `a` to `b` the operation learned about its process but holds the same locks,
      record and child. */
  ghost predicate Kept(a: Local, b: Local) {
    && b == a.(own := b.own)
    && b.own == a.own.(dead := b.own.dead, startOk := b.own.startOk, rcOk := b.own.rcOk,
                       verified := b.own.verified, execSeen := b.own.execSeen)
    && (a.own.dead ==> b.own.dead) && (a.own.execSeen ==> b.own.execSeen)
  }

  /** The operation is working on `state`: under its mount lock, on its record, and not in the
      middle of testing another record. */
  ghost predicate On(l: Local, state: MountState) {
    && l.server.Some? && l.own.record == Some(state)
    && (l.own.child.Some? ==> l.own.child.value.started.Some?)
    && (l.survey.Survey? ==> !l.survey.check.Reading?)
  }

  /** A snapshot of the process of `state`, and what it teaches. */
  method Look(os: Machine, state: MountState) returns (s: Option<ProcessSnapshot>)
    requires os.Valid() && On(os.local, state)
    modifies os`log, os`states, os`local, os`clock
    ensures os.Valid() && Kept(old(os.local), os.local) && os.clock == old(os.clock)
    ensures os.log == old(os.log) + [Observe(state.pid, s)]
    ensures Refutes(os.local.own, s) ==> os.local.own.dead
    ensures os.local.own.startOk == (s.Some? && StartTimeMatches(state, s.value))
    ensures os.local.own.verified == Verified(state, s, WINDOWS)
    ensures Verified(state, s, WINDOWS) && os.local.own.child.Some? ==> os.local.own.execSeen
  {
    s := os.Snapshot(state.pid);
  }

  /** Asks the RC endpoint for its PID. */
  method Ask(os: Machine, state: MountState) returns (matches: bool, ghost answer: Option<nat>)
    requires os.Valid() && On(os.local, state)
    modifies os`log, os`states, os`local, os`clock
    ensures os.Valid() && Kept(old(os.local), os.local) && os.clock >= old(os.clock)
    ensures os.local.own.startOk == old(os.local).own.startOk && os.local.own.rcOk == matches
    ensures os.log == old(os.log) + [RcAnswer(answer)] && (matches <==> answer == Some(state.pid))
  {
    var named := os.RcProcessId();
    AnswerKeeps(old(os.local), state, named);
    matches, answer := named == Some(state.pid), named;
  }

  lemma AnswerKeeps(l: Local, state: MountState, answer: Option<nat>)
    requires On(l, state)
    ensures var n := Next(l, RcAnswer(answer));
      Kept(l, n) && On(n, state) && n.own.startOk == l.own.startOk && n.own.rcOk == (answer == Some(state.pid))
  {
  }

  method Watch(os: Machine, state: MountState) returns (ready: bool)
    requires os.Valid() && On(os.local, state)
    modifies os`log, os`states, os`local, os`clock
    ensures os.Valid() && Kept(old(os.local), os.local) && os.clock == old(os.clock)
    ensures os.log == old(os.log) + [Ready(ready)]
  {
    ready := os.MountpointReady();
  }

  method Time(os: Machine, state: MountState) returns (now: int)
    requires os.Valid() && On(os.local, state)
    modifies os`log, os`states, os`local, os`clock
    ensures os.Valid() && Kept(old(os.local), os.local) && now == os.clock >= old(os.clock)
    ensures os.log == old(os.log) + [Clock(now)]
  {
    now := os.Now();
  }

  method Stop(os: Machine, state: MountState)
    requires os.Valid() && On(os.local, state) && os.local.own.startOk && os.local.own.rcOk
    modifies os`log, os`states, os`local, os`clock
    ensures os.Valid() && Kept(old(os.local), os.local) && os.clock == old(os.clock)
    ensures os.log == old(os.log) + [Quit]
  {
    os.RcQuit();
  }

  datatype MountStatus = StatusMounted | StatusStarting | StatusStale

  /** The trace `t` of what was logged since `log`, continued by `u`. */
  ghost function Then(log: seq<Event>, t: seq<Event>, u: seq<Event>): (r: seq<Event>)
    ensures r == t + u && log + t + u == log + r
  {
    t + u
  }

  method SignalVerified(os: Machine, state: MountState, force: bool) returns (r: Result<bool, ()>, ghost t: seq<Event>)
    requires os.Valid() && On(os.local, state)
    modifies os`log, os`states, os`local, os`clock
    ensures os.Valid() && Kept(old(os.local), os.local) && os.clock == old(os.clock)
    ensures os.log == old(os.log) + t && Signalled(t, state, force)
    ensures r == Ok(true) ==> |t| == 2
  {
    var snapshot := Look(os, state);
    t := [Observe(state.pid, snapshot)];
    if snapshot.None? { r := Err(()); return; }
    if !Verified(state, snapshot, WINDOWS) { r := Ok(false); return; }
    var ok := os.Kill(state.pid, force);
    t := t + [Event.Kill(state.pid, force)];
    r := if ok then Ok(true) else Err(());
  }

  method WaitForExit(os: Machine, state: MountState, timeout: nat, pollInterval: nat) returns (ghost t: seq<Event>)
    requires os.Valid() && On(os.local, state) && pollInterval > 0
    modifies os`log, os`states, os`local, os`clock
    ensures os.Valid() && Kept(old(os.local), os.local) && os.clock >= old(os.clock)
    ensures os.log == old(os.log) + t && Waits(t, state, timeout)
  {
    var now := Time(os, state);
    var deadline := now + timeout;
    t := [Clock(now)];
    while true
      invariant os.Valid() && Kept(old(os.local), os.local) && os.clock >= old(os.clock)
      invariant os.log == old(os.log) + t && Waiting(t, state, timeout) && t[0] == Clock(deadline - timeout)
      decreases if os.clock <= deadline then deadline - os.clock + 1 else 0
    {
      var done;
      done, t := LookAgain(os, state, timeout, deadline, t, old(os.log));
      if done { return; }
      os.Sleep(pollInterval);
    }
  }

  /** A look, and the time. */
  method LookAgain(os: Machine, state: MountState, ghost timeout: nat, deadline: int, ghost t: seq<Event>,
                   ghost log: seq<Event>)
    returns (done: bool, ghost more: seq<Event>)
    requires os.Valid() && On(os.local, state) && os.log == log + t
    requires Waiting(t, state, timeout) && t[0] == Clock(deadline - timeout)
    modifies os`log, os`states, os`local, os`clock
    ensures os.Valid() && Kept(old(os.local), os.local) && os.clock >= old(os.clock) && os.log == log + more
    ensures if done then Waits(more, state, timeout) else Waiting(more, state, timeout) && more[0] == t[0]
    ensures !done ==> os.clock < deadline
  {
    var snapshot := Look(os, state);
    more := Then(log, t, [Observe(state.pid, snapshot)]);
    assert more[..|more| - 1] == t;
    if snapshot.None? { done := true; return; }
    ghost var before := more;
    var now := Time(os, state);
    more := Then(log, more, [Clock(now)]);
    assert more[..|more| - 1] == before;
    done := now >= deadline;
  }

  /** Ends the process of `state` if it is verified to be ours; yes means it is gone. */
  method StopIfOwned(os: Machine, state: MountState, pollInterval: nat) returns (stopped: bool, ghost t: seq<Event>)
    requires os.Valid() && On(os.local, state) && pollInterval > 0
    modifies os`log, os`states, os`local, os`clock
    ensures os.Valid() && Kept(old(os.local), os.local)
    ensures stopped ==> os.local.own.dead
    ensures os.log == old(os.log) + t && StopDecided(t, state, stopped)
  {
    var snapshot := Look(os, state);
    t := [Observe(state.pid, snapshot)];
    if snapshot.None? { stopped := true; return; }
    if !StartTimeMatches(state, snapshot.value) { stopped := false; return; }
    ghost var rest;
    stopped, rest := StopMatching(os, state, Verified(state, snapshot, WINDOWS), pollInterval);
    DecidedByMatching(snapshot, rest, state, stopped);
    t := Then(old(os.log), t, rest);
  }

  lemma DecidedByMatching(snapshot: Option<ProcessSnapshot>, rest: seq<Event>, state: MountState, stopped: bool)
    requires snapshot.Some? && StartTimeMatches(state, snapshot.value)
    requires StopOfMatching(rest, state, Verified(state, snapshot, WINDOWS), stopped)
    ensures StopDecided([Observe(state.pid, snapshot)] + rest, state, stopped)
  {
    assert ([Observe(state.pid, snapshot)] + rest)[1..] == rest;
  }

  method StopMatching(os: Machine, state: MountState, commandMatches: bool, pollInterval: nat)
    returns (stopped: bool, ghost t: seq<Event>)
    requires os.Valid() && On(os.local, state) && os.local.own.startOk && pollInterval > 0
    modifies os`log, os`states, os`local, os`clock
    ensures os.Valid() && Kept(old(os.local), os.local)
    ensures stopped ==> os.local.own.dead
    ensures os.log == old(os.log) + t && StopOfMatching(t, state, commandMatches, stopped)
  {
    var rcMatches, answer := Ask(os, state);
    t := [RcAnswer(answer)];
    if !commandMatches && !rcMatches { stopped := false; return; }
    ghost var rest;
    stopped, rest := StopIdentified(os, state, rcMatches, pollInterval);
    MatchingStop(answer, rest, state, commandMatches, stopped);
    t := Then(old(os.log), t, Asked(rcMatches) + rest);
  }

  lemma MatchingStop(answer: Option<nat>, rest: seq<Event>, state: MountState, identified: bool, stopped: bool)
    requires Terminated(rest, state, stopped)
    requires identified || answer == Some(state.pid)
    ensures StopOfMatching([RcAnswer(answer)] + (Asked(answer == Some(state.pid)) + rest), state, identified, stopped)
  {
    var t := [RcAnswer(answer)] + (Asked(answer == Some(state.pid)) + rest);
    assert if answer == Some(state.pid) then t[2..] == rest else t[1..] == rest;
  }

  /** Quit if the endpoint named the process, and signals in any case. */
  method StopIdentified(os: Machine, state: MountState, rcMatches: bool, pollInterval: nat)
    returns (stopped: bool, ghost rest: seq<Event>)
    requires os.Valid() && On(os.local, state) && pollInterval > 0
    requires rcMatches ==> os.local.own.startOk && os.local.own.rcOk
    modifies os`log, os`states, os`local, os`clock
    ensures os.Valid() && Kept(old(os.local), os.local)
    ensures stopped ==> os.local.own.dead
    ensures os.log == old(os.log) + (Asked(rcMatches) + rest) && Terminated(rest, state, stopped)
  {
    AskToQuit(os, state, rcMatches);
    stopped, rest := Terminate(os, state, pollInterval);
  }

  method AskToQuit(os: Machine, state: MountState, rcMatches: bool)
    requires os.Valid() && On(os.local, state)
    requires rcMatches ==> os.local.own.startOk && os.local.own.rcOk
    modifies os`log, os`states, os`local, os`clock
    ensures os.Valid() && Kept(old(os.local), os.local) && os.clock == old(os.clock)
    ensures os.log == old(os.log) + Asked(rcMatches)
  {
    if rcMatches {
      Stop(os, state);
    }
  }

  /** A terminating signal, a grace period, then a killing one. */
  method Terminate(os: Machine, state: MountState, pollInterval: nat) returns (stopped: bool, ghost t: seq<Event>)
    requires os.Valid() && On(os.local, state) && pollInterval > 0
    modifies os`log, os`states, os`local, os`clock
    ensures os.Valid() && Kept(old(os.local), os.local)
    ensures stopped ==> os.local.own.dead
    ensures os.log == old(os.log) + t && Terminated(t, state, stopped)
  {
    ghost var x := SignalAndWait(os, state, false, pollInterval);
    ghost var y := KillRemaining(os, state, pollInterval);
    var snapshot := Look(os, state);
    stopped := snapshot.None?;
    t := Then(old(os.log), Then(old(os.log), x, y), [Observe(state.pid, snapshot)]);
    TerminatedBy(x, y, snapshot, state);
  }

  lemma TerminatedBy(x: seq<Event>, y: seq<Event>, snapshot: Option<ProcessSnapshot>, state: MountState)
    requires Attempt(x, state, false) && Finished(y, state)
    ensures Terminated(x + y + [Observe(state.pid, snapshot)], state, snapshot.None?)
  {
    var t := x + y + [Observe(state.pid, snapshot)];
    assert t[..|t| - 1] == x + y;
  }

  /** A killing signal if the process is still there. */
  method KillRemaining(os: Machine, state: MountState, pollInterval: nat) returns (ghost t: seq<Event>)
    requires os.Valid() && On(os.local, state) && pollInterval > 0
    modifies os`log, os`states, os`local, os`clock
    ensures os.Valid() && Kept(old(os.local), os.local)
    ensures os.log == old(os.log) + t && Finished(t, state)
  {
    var snapshot := Look(os, state);
    t := [Observe(state.pid, snapshot)];
    if Verified(state, snapshot, WINDOWS) {
      ghost var x := SignalAndWait(os, state, true, pollInterval);
      FinishedBy(snapshot, x, state);
      t := Then(old(os.log), t, x);
    }
  }

  lemma FinishedBy(snapshot: Option<ProcessSnapshot>, x: seq<Event>, state: MountState)
    requires Verified(state, snapshot, WINDOWS) && Attempt(x, state, true)
    ensures Finished([Observe(state.pid, snapshot)] + x, state)
  {
    assert ([Observe(state.pid, snapshot)] + x)[1..] == x;
  }

  method SignalAndWait(os: Machine, state: MountState, force: bool, pollInterval: nat) returns (ghost t: seq<Event>)
    requires os.Valid() && On(os.local, state) && pollInterval > 0
    modifies os`log, os`states, os`local, os`clock
    ensures os.Valid() && Kept(old(os.local), os.local)
    ensures os.log == old(os.log) + t && Attempt(t, state, force)
  {
    var _, s := SignalVerified(os, state, force);
    ghost var w := WaitForExit(os, state, STOP_GRACE, pollInterval);
    AttemptOf(s, w, state, force);
    t := Then(old(os.log), s, w);
  }

  /** Stale exactly when the snapshot rules the process out; mounted exactly when the mountpoint
      is ready and argv or the endpoint identifies it. */
  predicate Judged(events: seq<Event>, state: MountState, status: MountStatus) {
    && 0 < |events| <= 3 && events[0].Observe? && events[0].pid == state.pid
    && (|events| > 1 ==> events[1].Ready?) && (|events| > 2 ==> events[2].RcAnswer?)
    && (status.StatusStale? <==> |events| == 1)
    && (status.StatusStale? <==> !MayBeOwned(state, events[0].snapshot, WINDOWS))
    && (status.StatusMounted? <==>
          && MayBeOwned(state, events[0].snapshot, WINDOWS) && |events| > 1 && events[1] == Ready(true)
          && (Verified(state, events[0].snapshot, WINDOWS) || (|events| > 2 && events[2] == RcAnswer(Some(state.pid)))))
  }

  /** A record counts as stale only on proof that its process is gone or foreign. */
  method StatusFor(os: Machine, state: MountState) returns (status: MountStatus, ghost t: seq<Event>)
    requires os.Valid() && On(os.local, state) && os.local.own.child.None?
    modifies os`log, os`states, os`local, os`clock
    ensures os.Valid() && Kept(old(os.local), os.local)
    ensures status.StatusStale? ==> os.local.own.dead
    ensures os.log == old(os.log) + t && Judged(t, state, status)
  {
    var snapshot := Look(os, state);
    t := [Observe(state.pid, snapshot)];
    if snapshot.None? { status := StatusStale; return; }
    if !StartTimeMatches(state, snapshot.value) { status := StatusStale; return; }
    var arguments := snapshot.value.arguments;
    if arguments.Some? && !ArgvMatches(arguments.value, state, WINDOWS) { status := StatusStale; return; }
    var ready := Watch(os, state);
    t := t + [Ready(ready)];
    if ready && arguments.Some? { status := StatusMounted; return; }
    var rcMatches, answer := Ask(os, state);
    t := t + [RcAnswer(answer)];
    status := if ready && rcMatches then StatusMounted else StatusStarting;
  }

  // ------------------------------------------------------------------ readiness

  /** One poll of the readiness loop. */
  method PollOnce(os: Machine, state: MountState)
    returns (result: PollResult, ghost snapshot: Option<ProcessSnapshot>, ghost answer: Option<nat>)
    requires os.Valid() && On(os.local, state)
    modifies os`log, os`states, os`local, os`clock
    ensures os.Valid() && Kept(old(os.local), os.local) && os.clock >= old(os.clock)
    ensures os.log == old(os.log) + PollEvents(result, snapshot, answer, state)
    ensures PollFits(result, snapshot, answer, state)
    ensures result.AllGood? && os.local.own.child.Some? ==> os.local.own.execSeen
  {
    var seen := Look(os, state);
    snapshot, answer := seen, None;
    if seen.None? || !StartTimeMatches(state, seen.value) { result := Lost; return; }
    if !Verified(state, seen, WINDOWS) { result := Unidentified; return; }
    var answered;
    answered, answer := Ask(os, state);
    if !answered { result := Unanswered; return; }
    var mounted := Watch(os, state);
    result := if mounted then AllGood else Unmounted;
  }

  /** After a good poll: how long the run of good polls has lasted. */
  method Elapse(os: Machine, state: MountState, readySince: Option<int>)
    returns (since: int, now: int, ghost first: Option<int>)
    requires os.Valid() && On(os.local, state)
    modifies os`log, os`states, os`local, os`clock
    ensures os.Valid() && Kept(old(os.local), os.local) && os.clock >= old(os.clock)
    ensures os.log == old(os.log) + Tick(first) + Tick(Some(now))
    ensures first == if readySince.Some? then None else Some(since)
    ensures readySince.Some? ==> since == readySince.value
  {
    first := None;
    if readySince.None? {
      since := Time(os, state);
      first := Some(since);
    } else {
      since := readySince.value;
    }
    now := Time(os, state);
  }

  lemma SinceNext(before: seq<Round>, r: Round)
    ensures Since(before + [r])
         == if !r.result.AllGood? then None else if Since(before).Some? then Since(before) else r.since
  {
    assert (before + [r])[..|before|] == before;
  }

  /** One round: a poll, and for a good one the test of how long they have lasted. */
  method Inspect(os: Machine, state: MountState, readySince: Option<int>, stable: nat, ghost before: seq<Round>)
    returns (answer: Option<bool>, since: Option<int>, ghost round: Round)
    requires os.Valid() && On(os.local, state) && readySince == Since(before)
    modifies os`log, os`states, os`local, os`clock
    ensures os.Valid() && Kept(old(os.local), os.local) && os.clock >= old(os.clock)
    ensures os.log == old(os.log) + RoundEvents(round, state)
    ensures Follows(before, round, state) && round.late.None? && since == Since(before + [round])
    ensures answer == if round.result.Lost? then Some(false)
                      else if Stable(before, round, stable) then Some(true) else None
    ensures answer == Some(true) && os.local.own.child.Some? ==> os.local.own.execSeen
  {
    var result, s, a := PollOnce(os, state);
    round := Round(result, s, a, None, None, None);
    answer, since := None, None;
    if result.AllGood? {
      var start, now, first := Elapse(os, state, readySince);
      round := round.(since := first, elapsed := Some(now));
      since := Some(start);
      SinceNext(before, round);
      if now - start >= stable { answer := Some(true); }
    } else {
      SinceNext(before, round);
      if result.Lost? { answer := Some(false); }
    }
  }

  lemma LateReading(round: Round, now: int, state: MountState)
    requires round.late.None?
    ensures RoundEvents(round.(late := Some(now)), state) == RoundEvents(round, state) + [Clock(now)]
  {
  }

  lemma LateIrrelevant(before: seq<Round>, round: Round, late: Option<int>, state: MountState, stable: int)
    ensures Since(before + [round.(late := late)]) == Since(before + [round])
    ensures Follows(before, round.(late := late), state) <==> Follows(before, round, state)
    ensures Stable(before, round.(late := late), stable) <==> Stable(before, round, stable)
  {
    SinceNext(before, round);
    SinceNext(before, round.(late := late));
  }

  /** One round, then the deadline test and the pause before the next. */
  method Turn(os: Machine, state: MountState, readySince: Option<int>, options: Options, start: int,
              ghost before: seq<Round>)
    returns (answer: Option<bool>, since: Option<int>, ghost round: Round)
    requires os.Valid() && On(os.local, state) && readySince == Since(before)
    modifies os`log, os`states, os`local, os`clock
    ensures os.Valid() && Kept(old(os.local), os.local)
    ensures os.log == old(os.log) + RoundEvents(round, state)
    ensures answer.None? ==> os.clock >= old(os.clock) + options.pollInterval
                             && old(os.clock) < start + options.readyTimeout
    ensures answer.None? ==> GoesOn(before, round, state, options, start) && since == Since(before + [round])
    ensures answer.Some? ==> MountTraces.Decides(before, round, state, options, start, answer.value)
    ensures answer == Some(true) && os.local.own.child.Some? ==> os.local.own.execSeen
  {
    answer, since, round := Inspect(os, state, readySince, options.readyStableFor, before);
    if answer.Some? { return; }
    var now := Time(os, state);
    LateReading(round, now, state);
    LateIrrelevant(before, round, Some(now), state, options.readyStableFor);
    round := round.(late := Some(now));
    if now >= start + options.readyTimeout {
      answer := Some(false);
    } else {
      os.Sleep(options.pollInterval);
    }
  }

  lemma AnotherRound(rounds: seq<Round>, r: Round, state: MountState)
    ensures RoundsEvents(rounds + [r], state) == RoundsEvents(rounds, state) + RoundEvents(r, state)
  {
    assert (rounds + [r])[..|rounds|] == rounds;
  }

  lemma StillUndecided(rounds: seq<Round>, r: Round, state: MountState, options: Options, start: int)
    requires Undecided(rounds, state, options, start) && GoesOn(rounds, r, state, options, start)
    ensures Undecided(rounds + [r], state, options, start)
  {
    var more := rounds + [r];
    forall i | 0 <= i < |more| ensures GoesOn(more[..i], more[i], state, options, start) {
      if i < |rounds| {
        assert GoesOn(rounds[..i], rounds[i], state, options, start);
        assert more[..i] == rounds[..i];
      } else {
        assert more[..i] == rounds;
      }
    }
  }

  lemma AwaitedBy(before: seq<Round>, round: Round, state: MountState, options: Options, start: int, ready: bool)
    requires Undecided(before, state, options, start)
    requires MountTraces.Decides(before, round, state, options, start, ready)
    ensures Awaited([Clock(start)] + RoundsEvents(before + [round], state), before + [round], state, options, ready)
  {
    assert (before + [round])[..|before|] == before;
  }

  /** The readiness loop. */
  method WaitUntilReady(os: Machine, state: MountState, options: Options)
    returns (ready: bool, ghost t: seq<Event>, ghost rounds: seq<Round>)
    requires os.Valid() && On(os.local, state) && options.pollInterval > 0
    modifies os`log, os`states, os`local, os`clock
    ensures os.Valid() && Kept(old(os.local), os.local)
    ensures os.log == old(os.log) + t && Awaited(t, rounds, state, options, ready)
    ensures ready && os.local.own.child.Some? ==> os.local.own.execSeen
  {
    var start := Time(os, state);
    var deadline := start + options.readyTimeout;
    var readySince: Option<int> := None;
    rounds := [];
    while true
      invariant os.Valid() && Kept(old(os.local), os.local)
      invariant readySince == Since(rounds) && Undecided(rounds, state, options, start)
      invariant os.log == old(os.log) + ([Clock(start)] + RoundsEvents(rounds, state))
      decreases if os.clock <= deadline then deadline - os.clock + 1 else 0
    {
      var answer;
      answer, readySince, rounds := NextTurn(os, state, readySince, options, start, rounds, old(os.log));
      if answer.Some? {
        ready, t := answer.value, [Clock(start)] + RoundsEvents(rounds, state);
        return;
      }
    }
  }

  lemma RoundLogged(log: seq<Event>, start: int, rounds: seq<Round>, r: Round, state: MountState)
    ensures log + ([Clock(start)] + RoundsEvents(rounds, state)) + RoundEvents(r, state)
         == log + ([Clock(start)] + RoundsEvents(rounds + [r], state))
  {
    AnotherRound(rounds, r, state);
  }

  method NextTurn(os: Machine, state: MountState, readySince: Option<int>, options: Options, start: int,
                  ghost rounds: seq<Round>, ghost log: seq<Event>)
    returns (answer: Option<bool>, since: Option<int>, ghost more: seq<Round>)
    requires os.Valid() && On(os.local, state) && readySince == Since(rounds)
    requires Undecided(rounds, state, options, start) && os.log == log + ([Clock(start)] + RoundsEvents(rounds, state))
    modifies os`log, os`states, os`local, os`clock
    ensures os.Valid() && Kept(old(os.local), os.local)
    ensures os.log == log + ([Clock(start)] + RoundsEvents(more, state))
    ensures answer.None? ==> os.clock >= old(os.clock) + options.pollInterval
                             && old(os.clock) < start + options.readyTimeout
    ensures answer.None? ==> since == Since(more) && Undecided(more, state, options, start)
    ensures answer.Some? ==>
              Awaited([Clock(start)] + RoundsEvents(more, state), more, state, options, answer.value)
    ensures answer == Some(true) && os.local.own.child.Some? ==> os.local.own.execSeen
  {
    ghost var round;
    answer, since, round := Turn(os, state, readySince, options, start, rounds);
    more := rounds + [round];
    RoundLogged(log, start, rounds, round, state);
    if answer.Some? {
      AwaitedBy(rounds, round, state, options, start, answer.value);
    } else {
      StillUndecided(rounds, round, state, options, start);
    }
  }

  // ------------------------------------------------------------------ the reservation test

  /** Nothing changed but the survey of foreign records for `key`. */
  ghost predicate Surveying(a: Local, b: Local) {
    && b.server == a.server && b.own.(verified := false) == a.own.(verified := false)
    && a.survey.Survey? && b.survey.Survey? && b.survey.key == a.survey.key
  }

  /** The operation `l` with its survey at another point. */
  ghost function At(l: Local, cleared: set<ServerId>, check: Check): Local
    requires l.survey.Survey?
  {
    l.(own := l.own.(verified := false), survey := l.survey.(cleared := cleared, check := check))
  }

  /** The server is under survey and nothing else is being tested. */
  ghost predicate Between(l: Local) {
    l.server.Some? && l.own.child.None? && l.survey.Survey? && l.survey.listed.Some? && l.survey.check.Idle?
  }

  method ReadRecord(os: Machine, sid: ServerId) returns (other: Option<MountState>)
    requires os.Valid() && Between(os.local) && sid in os.local.survey.listed.value
    modifies os`log, os`states, os`local, os`clock
    ensures os.Valid() && os.log == old(os.log) + [ReadOther(sid, other)]
    ensures var l := old(os.local);
      var foreign := other.Some? && Some(other.value.serverId) != l.server && Key(other.value) == l.survey.key;
      os.local == if foreign then At(l, l.survey.cleared, Reading(sid, other.value))
                  else At(l, l.survey.cleared + {sid}, Idle)
  {
    other := os.ReadState(sid);
  }

  method LookAtOther(os: Machine, sid: ServerId, other: MountState) returns (s: Option<ProcessSnapshot>)
    requires os.Valid() && os.local.server.Some? && os.local.survey.Survey?
             && os.local.survey.check == Reading(sid, other)
    modifies os`log, os`states, os`local, os`clock
    ensures os.Valid() && os.log == old(os.log) + [ObserveOther(s)]
    ensures var l := old(os.local);
      os.local == if MayBeOwned(other, s, WINDOWS) then At(l, l.survey.cleared, Check.Reserved)
                  else if other.phase.Starting? then At(l, l.survey.cleared, Snapped(sid, other))
                  else At(l, l.survey.cleared + {sid}, Idle)
  {
    s := os.Snapshot(other.pid);
  }

  method ProbeOther(os: Machine, sid: ServerId, other: MountState) returns (held: bool)
    requires os.Valid() && os.local.server.Some? && os.local.survey.Survey?
             && os.local.survey.check == Snapped(sid, other)
    modifies os`log, os`states, os`local, os`clock
    ensures os.Valid() && os.log == old(os.log) + [ProbeLock(held)]
    ensures var l := old(os.local);
      os.local == if held then At(l, l.survey.cleared, Check.Reserved) else At(l, l.survey.cleared + {sid}, Idle)
  {
    held := os.MountLockContended();
  }

  /** What the snapshot, and for a Starting record the lock, say of a foreign record on the mountpoint. */
  predicate Tested(events: seq<Event>, state: MountState, reserved: bool) {
    && 0 < |events| && events[0].ObserveOther?
    && if MayBeOwned(state, events[0].snapshot, WINDOWS) then |events| == 1 && reserved
       else if !state.phase.Starting? then |events| == 1 && !reserved
       else |events| == 2 && events[1].ProbeLock? && reserved == events[1].held
  }

  /** What the test of `sid`'s record decides: unreadable, own and distant records never reserve. */
  predicate Tests(events: seq<Event>, server: ServerId, sid: ServerId, key: string, reserved: bool) {
    && 0 < |events| && events[0].ReadOther? && events[0].server == sid
    && var other := events[0].other;
    if other.None? || other.value.serverId == server || Key(other.value) != key then |events| == 1 && !reserved
    else Tested(events[1..], other.value, reserved)
  }

  /** One record of the listing. A record clears only if it is ours, gone, elsewhere, or refuted. */
  method RecordReserves(os: Machine, server: ServerId, sid: ServerId, key: string) returns (reserved: bool)
    requires os.Valid() && Between(os.local) && os.local.server == Some(server)
    requires os.local.survey.key == key && sid in os.local.survey.listed.value
    modifies os`log, os`states, os`local, os`clock
    ensures os.Valid() && Surveying(old(os.local), os.local) && old(os.log) <= os.log
    ensures !reserved ==> os.local == At(old(os.local), old(os.local).survey.cleared + {sid}, Idle)
    ensures Tests(os.log[|old(os.log)|..], server, sid, key, reserved)
  {
    ghost var (l, before) := (os.local, os.log);
    var other := ReadRecord(os, sid);
    AtSurveys(l, l.survey.cleared + {sid}, Idle);
    if other.None? { return false; }
    var state := other.value;
    if state.serverId == server || PathKey(state.mountpoint, WINDOWS) != key { return false; }
    ghost var read := os.log;
    reserved := TestRecord(os, sid, state, l);
    DecidesForeign(server, sid, key, state, os.log[|read|..], reserved);
    assert os.log[|before|..] == [ReadOther(sid, Some(state))] + os.log[|read|..];
  }

  lemma DecidesForeign(server: ServerId, sid: ServerId, key: string, state: MountState, events: seq<Event>,
                       reserved: bool)
    requires Tested(events, state, reserved) && state.serverId != server && Key(state) == key
    ensures Tests([ReadOther(sid, Some(state))] + events, server, sid, key, reserved)
  {
    assert ([ReadOther(sid, Some(state))] + events)[1..] == events;
  }

  method TestRecord(os: Machine, sid: ServerId, state: MountState, ghost l: Local) returns (reserved: bool)
    requires os.Valid() && l.server.Some? && l.survey.Survey?
    requires os.local == At(l, l.survey.cleared, Reading(sid, state))
    modifies os`log, os`states, os`local, os`clock
    ensures os.Valid() && Surveying(l, os.local) && old(os.log) <= os.log
    ensures !reserved ==> os.local == At(l, l.survey.cleared + {sid}, Idle)
    ensures Tested(os.log[|old(os.log)|..], state, reserved)
  {
    var snapshot := LookAtOther(os, sid, state);
    AtSurveys(l, l.survey.cleared, os.local.survey.check);
    AtSurveys(l, l.survey.cleared + {sid}, Idle);
    if MayBeOwned(state, snapshot, WINDOWS) { return true; }
    if !state.phase.Starting? { return false; }
    reserved := ProbeStarting(os, sid, state, l);
  }

  method ProbeStarting(os: Machine, sid: ServerId, state: MountState, ghost l: Local) returns (held: bool)
    requires os.Valid() && l.server.Some? && l.survey.Survey?
    requires os.local == At(l, l.survey.cleared, Snapped(sid, state))
    modifies os`log, os`states, os`local, os`clock
    ensures os.Valid() && Surveying(l, os.local) && os.log == old(os.log) + [ProbeLock(held)]
    ensures !held ==> os.local == At(l, l.survey.cleared + {sid}, Idle)
  {
    held := ProbeOther(os, sid, state);
  }

  lemma AtSurveys(l: Local, cleared: set<ServerId>, check: Check)
    requires l.survey.Survey?
    ensures Surveying(l, At(l, cleared, check)) && At(l, cleared, check).survey.check == check
  {
  }

  /** The log ends with the test of a record that reserves the mountpoint. */
  predicate DecidedAt(log: seq<Event>, from: nat, at: nat, server: ServerId, key: string) {
    from <= at < |log| && log[at].ReadOther? && Tests(log[at..], server, log[at].server, key, true)
  }

  method ReservedByOther(os: Machine, server: ServerId, mountpoint: string)
    returns (reserved: bool, ghost at: nat)
    requires os.Valid() && os.local.server == Some(server) && os.local.own.child.None?
    requires os.local.survey == Survey(PathKey(mountpoint, WINDOWS), None, {}, Idle)
    modifies os`log, os`states, os`local, os`clock
    ensures os.Valid() && Surveying(old(os.local), os.local) && old(os.log) <= os.log
    ensures !reserved ==> AllCleared(os.local)
    ensures reserved ==> DecidedAt(os.log, |old(os.log)|, at, server, PathKey(mountpoint, WINDOWS))
  {
    var ids := os.ListStates();
    if ids.None? { return false, 0; }
    reserved, at := AnyReserves(os, server, ids.value, PathKey(mountpoint, WINDOWS));
  }

  method AnyReserves(os: Machine, server: ServerId, ids: seq<ServerId>, key: string)
    returns (reserved: bool, ghost at: nat)
    requires os.Valid() && Between(os.local) && os.local.server == Some(server)
    requires os.local.survey.key == key && os.local.survey.listed == Some(set sid | sid in ids)
    modifies os`log, os`states, os`local, os`clock
    ensures os.Valid() && Surveying(old(os.local), os.local) && old(os.log) <= os.log
    ensures !reserved ==> AllCleared(os.local)
    ensures reserved ==> DecidedAt(os.log, |old(os.log)|, at, server, key)
  {
    ghost var listed := os.local;
    ghost var cleared := listed.survey.cleared;
    var i := 0;
    while i < |ids|
      invariant 0 <= i <= |ids| && os.Valid() && old(os.log) <= os.log
      invariant i == 0 ==> os.local == listed && cleared == listed.survey.cleared
      invariant i > 0 ==> os.local == At(listed, cleared, Idle)
      invariant forall k :: 0 <= k < i ==> ids[k] in cleared
    {
      at := |os.log|;
      var found := RecordReserves(os, server, ids[i], key);
      if found { return true, at; }
      cleared := cleared + {ids[i]};
      i := i + 1;
    }
    return false, 0;
  }

  /** Every listed record was cleared. */
  ghost predicate AllCleared(l: Local) {
    && l.survey.Survey? && l.survey.listed.Some? && l.survey.check.Idle?
    && forall sid :: sid in l.survey.listed.value ==> sid in l.survey.cleared
  }

  // ------------------------------------------------------------------ mount

  datatype MountRequest = MountRequest(
    server: ServerId, remote: string, mountpoint: string, log: string, rclone: string, nfs: bool,
    config: string, htpasswd: string, cacheDir: string, tail: Args)

  /** No path option before the subcommand is spelled like the subcommand. */
  predicate Unambiguous(q: MountRequest) {
    Subcommand(q.nfs) !in {Normalize(q.rclone, WINDOWS), Normalize(q.config, WINDOWS), Normalize(q.htpasswd, WINDOWS)}
  }

  function StateFor(q: MountRequest, pid: nat, startedAt: Option<int>): MountState {
    MountState(pid, q.server, q.remote, q.mountpoint, q.log, q.rclone, q.nfs, Starting, startedAt)
  }

  lemma HeadUnambiguous(q: MountRequest, address: string)
    requires Unambiguous(q) && "127.0.0.1:" <= address
    ensures Subcommand(q.nfs) !in NormalizeAll(CommandHead(q.rclone, q.config, address, q.htpasswd), WINDOWS)
  {
    var head := CommandHead(q.rclone, q.config, address, q.htpasswd);
    var args := NormalizeAll(head, WINDOWS);
    assert address[0] == '1';
    Fixed("--config", WINDOWS); Fixed("--rc", WINDOWS); Fixed("--rc-addr", WINDOWS); Fixed("--rc-htpasswd", WINDOWS);
    forall i | 0 <= i < |args| ensures args[i] != Subcommand(q.nfs) {
      if i == 0 || i == 2 || i == 7 {
      } else if i == 5 {
        assert args[5][0] == '1';
      } else {
        assert args[i] == head[i] && args[i][0] == '-';
      }
    }
  }

  /** The operation may remove `server`'s record or has none. */
  ghost predicate Holding(l: Local, server: ServerId) {
    l.server == Some(server) && l.survey.NoSurvey?
  }

  /** The record of the server that is found, and how it was judged. */
  ghost predicate FoundRunning(t: seq<Event>) {
    && 1 < |t| && t[0].Load? && t[0].state.Some?
    && (Judged(t[1..], t[0].state.value, StatusMounted) || Judged(t[1..], t[0].state.value, StatusStarting))
  }

  /** Discards a record of the server that turned out stale. */
  method DropStale(os: Machine, server: ServerId) returns (error: Option<MountError>, ghost t: seq<Event>)
    requires os.Valid() && Holding(os.local, server) && os.local.own == UNKNOWN
    modifies os
    ensures os.Valid() && Holding(os.local, server) && os.local.own.child.None?
    ensures os.log == old(os.log) + t && os.faults >= old(os.faults)
    ensures error.None? ==> os.local.own.loaded && os.local.own.record.None?
    ensures os.faults == old(os.faults) ==> error.None? || error == Some(AlreadyMounted)
    ensures error == Some(AlreadyMounted) ==> FoundRunning(t)
    ensures error.None? || error.value in {AlreadyMounted, Unreadable, StorageFailed}
  {
    t := [];
    var loaded := os.LoadState();
    if loaded.Err? { error := Some(Unreadable); return; }
    t := [Load(loaded.value)];
    if loaded.value.None? { error := None; return; }
    var status, j := StatusFor(os, loaded.value.value);
    assert (t + j)[1..] == j;
    t := t + j;
    if !status.StatusStale? { error := Some(AlreadyMounted); return; }
    var ok, removed := os.RemoveState();
    t := t + [Remove(removed)];
    error := if ok then None else Some(StorageFailed);
  }

  /** Ready to spawn: every listed record is cleared and there is no record of our own. */
  ghost predicate Cleared(l: Local, q: MountRequest) {
    && l.server == Some(q.server) && l.own.loaded && l.own.record.None? && l.own.child.None?
    && AllCleared(l) && l.survey.key == PathKey(q.mountpoint, WINDOWS)
  }

  /** The spawned process as it will be recorded. */
  ghost predicate Spawned(l: Local, q: MountRequest, state: MountState) {
    && l.server == Some(q.server) && l.own.record.None? && l.survey.Survey? && l.survey.check.Idle?
    && l.survey.key == PathKey(q.mountpoint, WINDOWS)
    && Describes(l, state)
    && state == StateFor(q, state.pid, state.startedAt)
  }

  /** The child is the process `state` describes. */
  ghost predicate Describes(l: Local, state: MountState) {
    && l.own.child.Some? && l.own.child.value.pid == state.pid
    && l.own.child.value.started == Some(state.startedAt)
    && ArgvMatches(l.own.child.value.command, state, WINDOWS)
  }

  method SpawnObserved(os: Machine, q: MountRequest) returns (r: Result<MountState, MountError>)
    requires os.Valid() && Cleared(os.local, q) && Unambiguous(q)
    modifies os
    ensures os.Valid() && old(os.log) <= os.log && os.faults >= old(os.faults) + (if r.Ok? then 0 else 1)
    ensures r.Err? ==> os.local == old(os.local) && r.error == ProcessFailed
    ensures r.Ok? ==> Spawned(os.local, q, r.value)
  {
    var address := os.LoopbackAddress();
    if address.None? { return Err(ProcessFailed); }
    var head := CommandHead(q.rclone, q.config, address.value, q.htpasswd);
    var command := BuildCommand(StateFor(q, 0, None), head, q.cacheDir, q.tail);
    var born := Birth(os, q, command);
    if born.Err? { return Err(ProcessFailed); }
    CommandFits(q, born.value, head, address.value);
    return Ok(born.value);
  }

  /** Spawns `command` and takes the first snapshot of its PID. */
  method Birth(os: Machine, q: MountRequest, command: Args) returns (r: Result<MountState, ()>)
    requires os.Valid() && Cleared(os.local, q)
    modifies os
    ensures os.Valid() && old(os.log) <= os.log && os.faults >= old(os.faults) + (if r.Ok? then 0 else 1)
    ensures r.Err? ==> os.local == old(os.local)
    ensures r.Ok? ==>
      && os.local.server == Some(q.server) && os.local.survey == old(os.local).survey && os.local.own.record.None?
      && os.local.own.child.Some? && os.local.own.child.value.pid == r.value.pid
      && os.local.own.child.value.started == Some(r.value.startedAt) && os.local.own.child.value.command == command
      && r.value == StateFor(q, r.value.pid, r.value.startedAt)
  {
    var spawned, serial := os.Spawn(command);
    if spawned.Err? { return Err(()); }
    var snapshot := os.Snapshot(spawned.value);
    return Ok(StateFor(q, spawned.value, if snapshot.Some? then Some(snapshot.value.startedAt) else None));
  }

  lemma CommandFits(q: MountRequest, state: MountState, head: Args, address: string)
    requires Unambiguous(q) && "127.0.0.1:" <= address
    requires head == CommandHead(q.rclone, q.config, address, q.htpasswd)
    requires state == StateFor(q, state.pid, state.startedAt)
    ensures ArgvMatches(BuildCommand(StateFor(q, 0, None), head, q.cacheDir, q.tail), state, WINDOWS)
  {
    HeadUnambiguous(q, address);
    BuiltCommandMatches(state, head, q.cacheDir, q.tail, WINDOWS);
  }

  /** The first record could not be written, and a stop was tried. */
  ghost predicate SpawnUndone(log: seq<Event>, s: seq<Event>, state: MountState) {
    && |s| < |log| && log[|log| - |s|..] == s && (StopDecided(s, state, true) || StopDecided(s, state, false))
    && log[|log| - |s| - 1].Save? && log[|log| - |s| - 1].saved == state
  }

  /** Spawns the process and records it, still under the allocation lock. */
  method SpawnRecorded(os: Machine, q: MountRequest, options: Options)
    returns (r: Result<MountState, MountError>, ghost s: seq<Event>, ghost state: MountState)
    requires os.Valid() && Cleared(os.local, q) && Unambiguous(q) && options.pollInterval > 0
    modifies os
    ensures os.Valid() && os.local.server == Some(q.server) && os.local.survey.Survey? && old(os.log) <= os.log
    ensures os.faults >= old(os.faults) + (if r.Ok? then 0 else 1)
    ensures r.Ok? ==> On(os.local, r.value) && os.local.own.saved && Describes(os.local, r.value)
    ensures r.Ok? ==> r.value == StateFor(q, r.value.pid, r.value.startedAt)
    ensures r.Err? ==> r.error in {ProcessFailed, StorageFailed}
    ensures r.Err? && os.local.own.child.Some? ==> r.error == StorageFailed && SpawnUndone(os.log, s, state)
  {
    r := SpawnObserved(os, q);
    s := [];
    if r.Err? { state := StateFor(q, 0, None); return; }
    state := r.value;
    r, s := SaveStarting(os, q, r.value, options);
  }

  /** The first record; when it cannot be written, the process is stopped. */
  method SaveStarting(os: Machine, q: MountRequest, state: MountState, options: Options)
    returns (r: Result<MountState, MountError>, ghost s: seq<Event>)
    requires os.Valid() && Spawned(os.local, q, state) && options.pollInterval > 0
    modifies os
    ensures os.Valid() && os.local.server == Some(q.server) && os.local.survey.Survey? && old(os.log) <= os.log
    ensures os.faults >= old(os.faults) + (if r.Ok? then 0 else 1)
    ensures r.Ok? ==> r.value == state && On(os.local, state) && os.local.own.saved && Describes(os.local, state)
    ensures r.Err? ==> r.error == StorageFailed && SpawnUndone(os.log, s, state)
  {
    var ok, written := os.SaveState(state);
    s, r := [], Ok(state);
    if !ok {
      ghost var before := os.log;
      var stopped, tried := StopIfOwned(os, state, options.pollInterval);
      s, r := tried, Err(StorageFailed);
      SpawnUndoneBy(before, s, state, stopped);
    }
  }

  lemma SpawnUndoneBy(before: seq<Event>, s: seq<Event>, state: MountState, stopped: bool)
    requires before != [] && before[|before| - 1].Save? && before[|before| - 1].saved == state
    requires StopDecided(s, state, stopped)
    ensures SpawnUndone(before + s, s, state)
  {
    assert (before + s)[|before|..] == s;
  }

  /** Why the part of a mount that holds the allocation lock failed. */
  ghost predicate AllocationFailed(log: seq<Event>, from: nat, at: nat, s: seq<Event>, state: MountState, local: Local,
                                   q: MountRequest, error: MountError)
  {
    && (error == MountError.Reserved ==> DecidedAt(log, from, at, q.server, PathKey(q.mountpoint, WINDOWS)))
    && (local.own.child.Some? ==> error == StorageFailed && SpawnUndone(log, s, state))
    && error in {LockFailed, MountError.Reserved, InvalidMountpoint, StorageFailed, ProcessFailed}
  }

  /** The part of a mount that holds the allocation lock. */
  method Allocate(os: Machine, q: MountRequest, options: Options)
    returns (r: Result<MountState, MountError>, ghost log: seq<Event>, ghost at: nat, ghost s: seq<Event>,
             ghost state: MountState)
    requires os.Valid() && Holding(os.local, q.server) && Unambiguous(q) && options.pollInterval > 0
    requires os.local.own.loaded && os.local.own.record.None? && os.local.own.child.None?
    modifies os
    ensures os.Valid() && Holding(os.local, q.server) && old(os.log) <= os.log && os.faults >= old(os.faults)
    ensures r.Ok? ==> On(os.local, r.value) && os.local.own.saved && Describes(os.local, r.value)
    ensures r.Ok? ==> r.value == StateFor(q, r.value.pid, r.value.startedAt)
    ensures r.Err? ==> AllocationFailed(log, |old(os.log)|, at, s, state, os.local, q, r.error)
    ensures r.Err? ==> os.faults > old(os.faults) || r.error == MountError.Reserved
    ensures os.log == (log + if r == Err(LockFailed) then [] else [Event.UnlockAllocation]) && old(os.log) <= log
  {
    at, s, state := 0, [], StateFor(q, 0, None);
    var locked := os.LockAllocation(PathKey(q.mountpoint, WINDOWS));
    log := os.log;
    if !locked { r := Err(LockFailed); return; }
    var reserved, found := ReservedByOther(os, q.server, q.mountpoint);
    if reserved {
      r, at := Err(MountError.Reserved), found;
    } else {
      r, s, state := PrepareAndSpawn(os, q, options);
    }
    log := os.log;
    os.UnlockAllocation();
  }

  method PrepareAndSpawn(os: Machine, q: MountRequest, options: Options)
    returns (r: Result<MountState, MountError>, ghost s: seq<Event>, ghost state: MountState)
    requires os.Valid() && Cleared(os.local, q) && Unambiguous(q) && options.pollInterval > 0
    modifies os
    ensures os.Valid() && os.local.server == Some(q.server) && os.local.survey.Survey? && old(os.log) <= os.log
    ensures os.faults >= old(os.faults) + (if r.Ok? then 0 else 1)
    ensures r.Ok? ==> On(os.local, r.value) && os.local.own.saved && Describes(os.local, r.value)
    ensures r.Ok? ==> r.value == StateFor(q, r.value.pid, r.value.startedAt)
    ensures r.Err? ==> r.error in {InvalidMountpoint, ProcessFailed, StorageFailed}
    ensures r.Err? && os.local.own.child.Some? ==> r.error == StorageFailed && SpawnUndone(os.log, s, state)
  {
    s, state := [], StateFor(q, 0, None);
    var prepared := os.Prepare();
    if !prepared { r := Err(InvalidMountpoint); return; }
    var directories := os.Prepare();
    if !directories { r := Err(StorageFailed); return; }
    r, s, state := SpawnRecorded(os, q, options);
  }

  /** Waits for readiness and records it, or stops what was started. */
  method Settle(os: Machine, state: MountState, options: Options)
    returns (r: Result<MountState, MountError>, ghost w: seq<Event>, ghost rounds: seq<Round>, ghost g: seq<Event>)
    requires os.Valid() && Holding(os.local, state.serverId) && On(os.local, state)
    requires os.local.own.saved && Describes(os.local, state) && options.pollInterval > 0
    modifies os
    ensures os.Valid() && Holding(os.local, state.serverId) && os.faults >= old(os.faults)
    ensures os.log == old(os.log) + w + g && Settled(w, rounds, g, state, options, r)
    ensures r == Err(StorageFailed) ==> os.faults > old(os.faults)
  {
    var ready;
    ready, w, rounds := WaitUntilReady(os, state, options);
    if !ready {
      var cleared;
      cleared, g := GiveUp(os, state, options.pollInterval);
      r := Err(if cleared then NeverReady else StorageFailed);
      return;
    }
    r, g := Conclude(os, state, options);
  }

  /** Records that the mount is ready; a failed write is no mount. */
  method Conclude(os: Machine, state: MountState, options: Options)
    returns (r: Result<MountState, MountError>, ghost g: seq<Event>)
    requires os.Valid() && Holding(os.local, state.serverId) && On(os.local, state)
    requires os.local.own.saved && Describes(os.local, state) && os.local.own.execSeen && options.pollInterval > 0
    modifies os
    ensures os.Valid() && Holding(os.local, state.serverId) && os.log == old(os.log) + g
    ensures var mounted := state.(phase := Mounted);
      if r.Ok? then r.value == mounted && g == [Save(mounted, true)]
      else r.error == StorageFailed && SaveUndone(g, mounted)
    ensures os.faults >= old(os.faults) + (if r.Ok? then 0 else 1)
  {
    var mounted := state.(phase := Mounted);
    var ok, written := SaveMounted(os, state);
    g := [Save(mounted, written)];
    if ok { r := Ok(mounted); return; }
    var cleared, tried := GiveUp(os, mounted, options.pollInterval);
    SaveUndoneBy(written, tried, mounted, cleared);
    g := Then(old(os.log), g, tried);
    r := Err(StorageFailed);
  }

  lemma SaveUndoneBy(written: bool, tried: seq<Event>, mounted: MountState, cleared: bool)
    requires GivenUp(tried, mounted, cleared)
    ensures SaveUndone([Save(mounted, written)] + tried, mounted)
  {
    assert ([Save(mounted, written)] + tried)[1..] == tried;
  }

  /** Stops what was started and discards its record once it is gone; no means the record could
      not be removed. */
  method GiveUp(os: Machine, state: MountState, pollInterval: nat) returns (ok: bool, ghost t: seq<Event>)
    requires os.Valid() && On(os.local, state) && pollInterval > 0
    modifies os
    ensures os.Valid() && os.local.server == old(os.local).server && os.local.survey == old(os.local).survey
    ensures os.log == old(os.log) + t && GivenUp(t, state, ok)
    ensures os.faults >= old(os.faults) + (if ok then 0 else 1)
  {
    var stopped;
    stopped, t := StopIfOwned(os, state, pollInterval);
    ok := true;
    if stopped {
      var done, removed := os.RemoveState();
      GivenUpBy(t, removed, state, done);
      ok, t := done, Then(old(os.log), t, [Remove(removed)]);
    } else {
      StopEndsOtherwise(t, state);
    }
  }

  lemma GivenUpBy(t: seq<Event>, removed: bool, state: MountState, ok: bool)
    requires StopDecided(t, state, true) && (ok ==> removed)
    ensures GivenUp(t + [Remove(removed)], state, ok)
  {
    assert (t + [Remove(removed)])[..|t|] == t;
  }

  lemma StopEndsOtherwise(t: seq<Event>, state: MountState)
    requires StopDecided(t, state, false)
    ensures !t[|t| - 1].Remove?
  {
  }

  lemma PhaseFree(command: Args, state: MountState)
    ensures ArgvMatches(command, state.(phase := Mounted), WINDOWS) == ArgvMatches(command, state, WINDOWS)
  {
  }

  method SaveMounted(os: Machine, state: MountState) returns (ok: bool, ghost written: bool)
    requires os.Valid() && Holding(os.local, state.serverId) && On(os.local, state)
    requires os.local.own.saved && Describes(os.local, state) && os.local.own.execSeen
    modifies os
    ensures os.Valid() && Holding(os.local, state.serverId) && On(os.local, state.(phase := Mounted))
    ensures os.log == old(os.log) + [Save(state.(phase := Mounted), written)] && (ok ==> written)
    ensures os.faults == old(os.faults) + if ok then 0 else 1
  {
    PhaseFree(os.local.own.child.value.command, state);
    ok, written := os.SaveState(state.(phase := Mounted));
  }

  /** How the part of a mount below its lock went, from the log it leaves. */
  ghost predicate MountEnded(log: seq<Event>, from: nat, e: MountEnd, local: Local, q: MountRequest, options: Options,
                             r: Result<MountState, MountError>)
  {
    match e
    case Found(t) => r == Err(AlreadyMounted) && FoundRunning(t) && from <= |log| && log[from..] == t
    case NotCleared => r == Err(Unreadable) || r == Err(StorageFailed)
    case Unallocated(before, at, s, state) =>
      && r.Err? && from <= |before| && AllocationFailed(before, from, at, s, state, local, q, r.error)
      && log == before + if r == Err(LockFailed) then [] else [Event.UnlockAllocation]
    case Settling(w, rounds, g, state) =>
      && state == StateFor(q, state.pid, state.startedAt) && Settled(w, rounds, g, state, options, r)
      && from + |w + g| <= |log| && log[|log| - |w + g|..] == w + g
  }

  datatype MountEnd =
    | Found(found: seq<Event>)
    | NotCleared
    | Unallocated(before: seq<Event>, at: nat, stop: seq<Event>, unsaved: MountState)
    | Settling(wait: seq<Event>, rounds: seq<Round>, rest: seq<Event>, started: MountState)

  /** `mount`: under the server's mount lock from beginning to end. Whatever process it spawned, it
      reports as mounted after a stable wait or has tried to stop; without a fault it fails only for
      a mount that is running already, a reserved mountpoint, or a wait in vain. */
  method Mount(os: Machine, q: MountRequest, options: Options)
    returns (r: Result<MountState, MountError>, ghost e: MountEnd, ghost done: seq<Event>, ghost local: Local)
    requires os.Valid() && os.local == FRESH && Unambiguous(q) && options.pollInterval > 0
    modifies os
    ensures os.Valid() && os.local == FRESH && os.faults >= old(os.faults)
    ensures if os.log == old(os.log) then r == Err(LockFailed) && os.faults > old(os.faults)
            else
              && os.log == done + [Event.UnlockMount] && old(os.log) + [Event.LockMount(q.server)] <= done
              && |os.states| > |done| && local == os.states[|done|]
              && MountEnded(done, |old(os.log)| + 1, e, local, q, options, r)
              && (local.own.child.Some? ==> Spawns(e))
    ensures os.faults == old(os.faults) && r.Err? ==> r.error in {AlreadyMounted, MountError.Reserved, NeverReady}
  {
    e, done, local := NotCleared, [], FRESH;
    var locked := os.LockMount(q.server);
    if !locked { r := Err(LockFailed); return; }
    r, e := MountLocked(os, q, options);
    done, local := os.log, os.local;
    ghost var states := os.states;
    os.UnlockMount();
  }

  /** The ends that account for a spawned process. */
  predicate Spawns(e: MountEnd) {
    e.Unallocated? || e.Settling?
  }

  method MountLocked(os: Machine, q: MountRequest, options: Options)
    returns (r: Result<MountState, MountError>, ghost e: MountEnd)
    requires os.Valid() && Holding(os.local, q.server) && os.local.own == UNKNOWN
    requires Unambiguous(q) && options.pollInterval > 0
    modifies os
    ensures os.Valid() && Holding(os.local, q.server) && old(os.log) <= os.log && os.faults >= old(os.faults)
    ensures MountEnded(os.log, |old(os.log)|, e, os.local, q, options, r)
    ensures os.local.own.child.Some? ==> Spawns(e)
    ensures os.faults == old(os.faults) && r.Err? ==> r.error in {AlreadyMounted, MountError.Reserved, NeverReady}
  {
    ghost var from := |os.log|;
    var error, t := DropStale(os, q.server);
    if error.Some? {
      e := if error == Some(AlreadyMounted) then Found(t) else NotCleared;
      assert os.log[from..] == t;
      r := Err(error.value);
      return;
    }
    r, e := MountCleared(os, q, options, from);
  }

  method MountCleared(os: Machine, q: MountRequest, options: Options, ghost from: nat)
    returns (r: Result<MountState, MountError>, ghost e: MountEnd)
    requires os.Valid() && Holding(os.local, q.server) && from <= |os.log|
    requires os.local.own.loaded && os.local.own.record.None? && os.local.own.child.None?
    requires Unambiguous(q) && options.pollInterval > 0
    modifies os
    ensures os.Valid() && Holding(os.local, q.server) && old(os.log) <= os.log && os.faults >= old(os.faults)
    ensures MountEnded(os.log, from, e, os.local, q, options, r) && Spawns(e)
    ensures os.faults == old(os.faults) && r.Err? ==> r.error in {MountError.Reserved, NeverReady}
  {
    var started, log, at, s, state := Allocate(os, q, options);
    if started.Err? {
      e := Unallocated(log, at, s, state);
      Later(log, from, |old(os.log)|, at, s, state, os.local, q, started.error);
      r := started;
      return;
    }
    r, e := SettleStarted(os, q, started.value, options, from);
  }

  method SettleStarted(os: Machine, q: MountRequest, state: MountState, options: Options, ghost from: nat)
    returns (r: Result<MountState, MountError>, ghost e: MountEnd)
    requires os.Valid() && Holding(os.local, q.server) && from <= |os.log|
    requires On(os.local, state) && os.local.own.saved && Describes(os.local, state)
    requires state == StateFor(q, state.pid, state.startedAt) && options.pollInterval > 0
    modifies os
    ensures os.Valid() && Holding(os.local, q.server) && old(os.log) <= os.log && os.faults >= old(os.faults)
    ensures MountEnded(os.log, from, e, os.local, q, options, r) && Spawns(e)
    ensures os.faults == old(os.faults) && r.Err? ==> r.error == NeverReady
  {
    ghost var w, rounds, g;
    r, w, rounds, g := Settle(os, state, options);
    e := Settling(w, rounds, g, state);
    SettlingEnded(old(os.log), os.log, w, rounds, g, state, from, os.local, q, options, r);
  }

  lemma SettlingEnded(before: seq<Event>, log: seq<Event>, w: seq<Event>, rounds: seq<Round>, g: seq<Event>,
                      state: MountState, from: nat, local: Local, q: MountRequest, options: Options,
                      r: Result<MountState, MountError>)
    requires log == before + w + g && from <= |before| && Settled(w, rounds, g, state, options, r)
    requires state == StateFor(q, state.pid, state.startedAt)
    ensures MountEnded(log, from, Settling(w, rounds, g, state), local, q, options, r)
  {
    assert log == before + (w + g) && log[|log| - |w + g|..] == w + g;
  }

  lemma Later(log: seq<Event>, from: nat, later: nat, at: nat, s: seq<Event>, state: MountState, local: Local,
              q: MountRequest, error: MountError)
    requires AllocationFailed(log, later, at, s, state, local, q, error) && from <= later
    ensures AllocationFailed(log, from, at, s, state, local, q, error)
  {
  }

  // ------------------------------------------------------------------ unmount and cleanup

  method WaitWhileReady(os: Machine, state: MountState, options: Options) returns (ghost t: seq<Event>)
    requires os.Valid() && On(os.local, state) && options.pollInterval > 0
    modifies os`log, os`states, os`local, os`clock
    ensures os.Valid() && Kept(old(os.local), os.local)
    ensures os.log == old(os.log) + t && ReadyWaits(t, options.stopTimeout)
  {
    var now := Time(os, state);
    var deadline := now + options.stopTimeout;
    t := [Clock(now)];
    while true
      invariant os.Valid() && Kept(old(os.local), os.local)
      invariant os.log == old(os.log) + t && WatchingReady(t, options.stopTimeout)
      invariant t[0] == Clock(deadline - options.stopTimeout)
      decreases if os.clock <= deadline then deadline - os.clock + 1 else 0
    {
      var done;
      done, t := WatchAgain(os, state, options.stopTimeout, deadline, t, old(os.log));
      if done { return; }
      os.Sleep(options.pollInterval);
    }
  }

  /** A look at the mountpoint, and the time. */
  method WatchAgain(os: Machine, state: MountState, ghost timeout: nat, deadline: int, ghost t: seq<Event>,
                    ghost log: seq<Event>)
    returns (done: bool, ghost more: seq<Event>)
    requires os.Valid() && On(os.local, state) && os.log == log + t
    requires WatchingReady(t, timeout) && t[0] == Clock(deadline - timeout)
    modifies os`log, os`states, os`local, os`clock
    ensures os.Valid() && Kept(old(os.local), os.local) && os.clock >= old(os.clock) && os.log == log + more
    ensures if done then ReadyWaits(more, timeout) else WatchingReady(more, timeout) && more[0] == t[0]
    ensures !done ==> os.clock < deadline
  {
    var ready := Watch(os, state);
    more := Then(log, t, [Ready(ready)]);
    assert more[..|more| - 1] == t;
    if !ready { done := true; return; }
    ghost var before := more;
    var now := Time(os, state);
    more := Then(log, more, [Clock(now)]);
    assert more[..|more| - 1] == before;
    done := now >= deadline;
  }

  /** A process that did not exit by itself is stopped, and waited for again. */
  method Resort(os: Machine, state: MountState, options: Options) returns (ghost t: seq<Event>)
    requires os.Valid() && On(os.local, state) && options.pollInterval > 0
    modifies os`log, os`states, os`local, os`clock
    ensures os.Valid() && Kept(old(os.local), os.local)
    ensures os.log == old(os.log) + t && Resorted(t, state, options.stopTimeout)
  {
    var snapshot := Look(os, state);
    t := [Observe(state.pid, snapshot)];
    if snapshot.Some? {
      ghost var rest := StopAndWait(os, state, options);
      ResortedBy(snapshot, rest, state, options.stopTimeout);
      t := Then(old(os.log), t, rest);
    }
  }

  method StopAndWait(os: Machine, state: MountState, options: Options) returns (ghost t: seq<Event>)
    requires os.Valid() && On(os.local, state) && options.pollInterval > 0
    modifies os`log, os`states, os`local, os`clock
    ensures os.Valid() && Kept(old(os.local), os.local)
    ensures os.log == old(os.log) + t && StopThenWait(t, state, options.stopTimeout)
  {
    var stopped, s := StopIfOwned(os, state, options.pollInterval);
    ghost var w := WaitForExit(os, state, options.stopTimeout, options.pollInterval);
    t := Then(old(os.log), s, w);
    StopThenWaits(s, w, state, stopped, options.stopTimeout);
  }

  lemma StopThenWaits(s: seq<Event>, w: seq<Event>, state: MountState, stopped: bool, timeout: nat)
    requires StopDecided(s, state, stopped) && Waits(w, state, timeout)
    ensures StopThenWait(s + w, state, timeout)
  {
  }

  lemma ResortedBy(snapshot: Option<ProcessSnapshot>, rest: seq<Event>, state: MountState, timeout: nat)
    requires snapshot.Some? && StopThenWait(rest, state, timeout)
    ensures Resorted([Observe(state.pid, snapshot)] + rest, state, timeout)
  {
    assert ([Observe(state.pid, snapshot)] + rest)[1..] == rest;
  }

  /** Ends the identified process; yes means a last snapshot no longer showed it. */
  method EndProcess(os: Machine, state: MountState, rcMatches: bool, options: Options)
    returns (gone: bool, ghost t: seq<Event>)
    requires os.Valid() && On(os.local, state) && options.pollInterval > 0
    requires rcMatches ==> os.local.own.startOk && os.local.own.rcOk
    modifies os`log, os`states, os`local, os`clock
    ensures os.Valid() && Kept(old(os.local), os.local)
    ensures gone ==> os.local.own.dead
    ensures os.log == old(os.log) + t && Ended(t, state, rcMatches, options.stopTimeout, gone)
  {
    AskToQuit(os, state, rcMatches);
    ghost var w := WaitForExit(os, state, options.stopTimeout, options.pollInterval);
    ghost var r := Resort(os, state, options);
    var snapshot := Look(os, state);
    gone := snapshot.None?;
    ghost var log := old(os.log);
    t := Then(log, Then(log, Then(log, Asked(rcMatches), w), r), [Observe(state.pid, snapshot)]);
    EndedBy(rcMatches, w, r, snapshot, state, options.stopTimeout);
  }

  lemma EndedBy(named: bool, w: seq<Event>, r: seq<Event>, snapshot: Option<ProcessSnapshot>, state: MountState,
                timeout: nat)
    requires Waits(w, state, timeout) && Resorted(r, state, timeout)
    ensures Ended(Asked(named) + w + r + [Observe(state.pid, snapshot)], state, named, timeout, snapshot.None?)
  {
    var t := Asked(named) + w + r + [Observe(state.pid, snapshot)];
    assert t[..|t| - 1] == Asked(named) + w + r;
  }

  /** Stops the identified process and discards its record once it is gone and unmounted. */
  method Dismantle(os: Machine, state: MountState, rcMatches: bool, options: Options)
    returns (error: Option<MountError>, ghost t: seq<Event>)
    requires os.Valid() && On(os.local, state) && options.pollInterval > 0
    requires rcMatches ==> os.local.own.startOk && os.local.own.rcOk
    modifies os
    ensures os.Valid() && os.local.server == old(os.local).server && os.local.survey == old(os.local).survey
    ensures os.log == old(os.log) + t && Dismantled(t, state, rcMatches, options, error)
    ensures error.None? ==> os.local.own.record.None?
    ensures error.Some? ==> error.value in {DidNotExit, StillReady, StorageFailed}
    ensures error.Some? && error.value != StorageFailed ==> os.local.own.record == Some(state)
    ensures os.faults >= old(os.faults) + (if error == Some(StorageFailed) then 1 else 0)
  {
    var gone;
    gone, t := EndProcess(os, state, rcMatches, options);
    if !gone { error := Some(DidNotExit); return; }
    ghost var c;
    error, c := ClearMount(os, state, options);
    DismantledBy(t, c, state, rcMatches, options, error);
    t := Then(old(os.log), t, c);
  }

  lemma DismantledBy(e: seq<Event>, c: seq<Event>, state: MountState, named: bool, options: Options,
                     error: Option<MountError>)
    requires Ended(e, state, named, options.stopTimeout, true) && MountTraces.Cleared(c, options, error)
    requires error != Some(DidNotExit)
    ensures Dismantled(e + c, state, named, options, error)
  {
  }

  /** Waits for the mountpoint to go, and discards the record of one that went. */
  method ClearMount(os: Machine, state: MountState, options: Options)
    returns (error: Option<MountError>, ghost t: seq<Event>)
    requires os.Valid() && On(os.local, state) && os.local.own.dead && options.pollInterval > 0
    modifies os
    ensures os.Valid() && os.local.server == old(os.local).server && os.local.survey == old(os.local).survey
    ensures os.log == old(os.log) + t && MountTraces.Cleared(t, options, error)
    ensures error.None? ==> os.local.own.record.None?
    ensures error.Some? ==> error.value in {StillReady, StorageFailed}
    ensures error == Some(StillReady) ==> os.local.own.record == Some(state)
    ensures os.faults >= old(os.faults) + (if error == Some(StorageFailed) then 1 else 0)
  {
    ghost var w := WaitWhileReady(os, state, options);
    var ready := Watch(os, state);
    ghost var last := [Ready(ready)];
    if ready {
      error := Some(StillReady);
    } else {
      ghost var removal;
      error, removal := Discard(os, state, None);
      last := last + removal;
    }
    ClearedBy(w, last, options, error);
    assert os.log == old(os.log) + w + last;
    t := Then(old(os.log), w, last);
  }

  lemma ClearedBy(w: seq<Event>, last: seq<Event>, options: Options, error: Option<MountError>)
    requires ReadyWaits(w, options.stopTimeout) && Removal(last, error)
    ensures MountTraces.Cleared(w + last, options, error)
  {
  }

  /** Removes the record; `done` is what to report when that worked. */
  method Discard(os: Machine, state: MountState, done: Option<MountError>)
    returns (error: Option<MountError>, ghost t: seq<Event>)
    requires os.Valid() && On(os.local, state) && os.local.own.dead && done != Some(StorageFailed)
    modifies os
    ensures os.Valid() && os.local.server == old(os.local).server && os.local.survey == old(os.local).survey
    ensures os.log == old(os.log) + t && Discards(t, done, error)
    ensures error == done ==> os.local.own.record.None?
    ensures os.faults == old(os.faults) + if error == done then 0 else 1
  {
    var ok, removed := os.RemoveState();
    t := [Remove(removed)];
    error := if ok then done else Some(StorageFailed);
  }

  /** By the first snapshot, the endpoint and the argv: `UnmountDecided` says what follows. */
  method UnmountRecorded(os: Machine, state: MountState, options: Options)
    returns (error: Option<MountError>, ghost t: seq<Event>)
    requires os.Valid() && On(os.local, state) && os.local.own.child.None? && options.pollInterval > 0
    modifies os
    ensures os.Valid() && os.local.server == old(os.local).server && os.local.survey == old(os.local).survey
    ensures os.log == old(os.log) + t && UnmountDecided(t, state, options, error)
    ensures error in {None, Some(PidReused)} ==> os.local.own.record.None?
    ensures error.Some? && error.value !in {PidReused, StorageFailed} ==> os.local.own.record == Some(state)
    ensures os.faults >= old(os.faults) + (if error == Some(StorageFailed) then 1 else 0)
    ensures error !in {Some(LockFailed), Some(Unreadable), Some(NotRecorded)}
  {
    var snapshot := Look(os, state);
    t := [Observe(state.pid, snapshot)];
    if snapshot.None? || !StartTimeMatches(state, snapshot.value) {
      ghost var d;
      error, d := Discard(os, state, if snapshot.None? then None else Some(PidReused));
      assert (t + d)[1..] == d;
      t := Then(old(os.log), t, d);
      return;
    }
    ghost var rest;
    error, rest := UnmountMatching(os, state, snapshot, options);
    UnmountBy(snapshot, rest, state, options, error);
    t := Then(old(os.log), t, rest);
  }

  lemma UnmountBy(snapshot: Option<ProcessSnapshot>, rest: seq<Event>, state: MountState, options: Options,
                  error: Option<MountError>)
    requires snapshot.Some? && StartTimeMatches(state, snapshot.value)
    requires MatchingDecided(rest, snapshot.value, state, options, error)
    ensures UnmountDecided([Observe(state.pid, snapshot)] + rest, state, options, error)
  {
    assert ([Observe(state.pid, snapshot)] + rest)[1..] == rest;
  }

  method UnmountMatching(os: Machine, state: MountState, snapshot: Option<ProcessSnapshot>, options: Options)
    returns (error: Option<MountError>, ghost t: seq<Event>)
    requires os.Valid() && On(os.local, state) && os.local.own.child.None? && options.pollInterval > 0
    requires snapshot.Some? && StartTimeMatches(state, snapshot.value) && os.local.own.startOk
    requires Refutes(os.local.own, snapshot) ==> os.local.own.dead
    modifies os
    ensures os.Valid() && os.local.server == old(os.local).server && os.local.survey == old(os.local).survey
    ensures os.log == old(os.log) + t && MatchingDecided(t, snapshot.value, state, options, error)
    ensures error in {None, Some(PidReused)} ==> os.local.own.record.None?
    ensures error.Some? && error.value !in {PidReused, StorageFailed} ==> os.local.own.record == Some(state)
    ensures os.faults >= old(os.faults) + (if error == Some(StorageFailed) then 1 else 0)
    ensures error !in {Some(LockFailed), Some(Unreadable), Some(NotRecorded)}
  {
    var commandMatches := Verified(state, snapshot, WINDOWS);
    var rcMatches, answer := Ask(os, state);
    t := [RcAnswer(answer)];
    ghost var rest;
    if commandMatches || rcMatches {
      error, rest := Dismantle(os, state, rcMatches, options);
    } else {
      error, rest := UnmountUnnamed(os, state, snapshot.value.arguments.Some?);
    }
    assert (t + rest)[1..] == rest;
    t := Then(old(os.log), t, rest);
  }

  /** A readable argv that does not fit is proof, an unreadable one is not. */
  method UnmountUnnamed(os: Machine, state: MountState, readable: bool)
    returns (error: Option<MountError>, ghost t: seq<Event>)
    requires os.Valid() && On(os.local, state) && (readable ==> os.local.own.dead)
    modifies os
    ensures os.Valid() && os.local.server == old(os.local).server && os.local.survey == old(os.local).survey
    ensures os.log == old(os.log) + t
    ensures if readable then Discards(t, Some(PidReused), error) else t == [] && error == Some(IdentityUnverified)
    ensures error == Some(PidReused) ==> os.local.own.record.None?
    ensures error == Some(IdentityUnverified) ==> os.local.own.record == Some(state)
    ensures os.faults >= old(os.faults) + (if error == Some(StorageFailed) then 1 else 0)
  {
    t, error := [], Some(IdentityUnverified);
    if readable { error, t := Discard(os, state, Some(PidReused)); }
  }

  /** Below the lock: nothing could be read, nothing is recorded, or the record decides. */
  ghost predicate UnmountEnded(t: seq<Event>, options: Options, error: Option<MountError>) {
    if t == [] then error == Some(Unreadable)
    else
      && t[0].Load?
      && if t[0].state.None? then |t| == 1 && error == Some(NotRecorded)
         else UnmountDecided(t[1..], t[0].state.value, options, error)
  }

  /** `unmount` below its lock. */
  method UnmountLocked(os: Machine, server: ServerId, options: Options)
    returns (error: Option<MountError>, ghost t: seq<Event>)
    requires os.Valid() && Holding(os.local, server) && os.local.own == UNKNOWN && options.pollInterval > 0
    modifies os
    ensures os.Valid() && Holding(os.local, server)
    ensures os.log == old(os.log) + t && UnmountEnded(t, options, error)
    ensures error in {None, Some(PidReused)} ==> os.local.own.record.None?
    ensures error in {Some(Unreadable), Some(StorageFailed)} ==> os.faults > old(os.faults)
    ensures error != Some(LockFailed) && os.faults >= old(os.faults)
  {
    t := [];
    var loaded := os.LoadState();
    if loaded.Err? { error := Some(Unreadable); return; }
    t := [Load(loaded.value)];
    if loaded.value.None? { error := Some(NotRecorded); return; }
    ghost var u;
    error, u := UnmountRecorded(os, loaded.value.value, options);
    LoadedUnmount(loaded.value.value, u, options, error);
    t := Then(old(os.log), t, u);
  }

  lemma LoadedUnmount(state: MountState, u: seq<Event>, options: Options, error: Option<MountError>)
    requires UnmountDecided(u, state, options, error)
    ensures UnmountEnded([Load(Some(state))] + u, options, error)
  {
    assert ([Load(Some(state))] + u)[1..] == u;
  }

  method Unmount(os: Machine, server: ServerId, options: Options)
    returns (error: Option<MountError>, ghost t: seq<Event>)
    requires os.Valid() && os.local == FRESH && options.pollInterval > 0
    modifies os
    ensures os.Valid() && os.local == FRESH && os.faults >= old(os.faults)
    ensures if error == Some(LockFailed) then os.log == old(os.log)
            else
              && os.log == old(os.log) + [Event.LockMount(server)] + t + [Event.UnlockMount]
              && UnmountEnded(t, options, error)
    ensures error in {Some(LockFailed), Some(Unreadable), Some(StorageFailed)} ==> os.faults > old(os.faults)
  {
    t := [];
    var locked := os.LockMount(server);
    if !locked { error := Some(LockFailed); return; }
    error, t := UnmountLocked(os, server, options);
    os.UnlockMount();
  }

  /** Under the lock: no record, a record that is judged, or one proved stale and removed. */
  ghost predicate Cleaned(t: seq<Event>, r: Result<bool, MountError>) {
    if t == [] then r == Err(Unreadable)
    else
      && t[0].Load?
      && if t[0].state.None? then r == Ok(false) && |t| == 1
         else if t[|t| - 1].Remove? then
           && |t| > 1 && Judged(t[1..|t| - 1], t[0].state.value, StatusStale)
           && (r == Ok(true) || r == Err(StorageFailed)) && (r.Ok? ==> t[|t| - 1].removed)
         else
           && r == Ok(false)
           && (Judged(t[1..], t[0].state.value, StatusMounted) || Judged(t[1..], t[0].state.value, StatusStarting))
  }

  method CleanupLocked(os: Machine, server: ServerId) returns (r: Result<bool, MountError>, ghost t: seq<Event>)
    requires os.Valid() && Holding(os.local, server) && os.local.own == UNKNOWN
    modifies os
    ensures os.Valid() && Holding(os.local, server) && os.log == old(os.log) + t && Cleaned(t, r)
    ensures r != Err(LockFailed) && os.faults >= old(os.faults) + (if r.Ok? then 0 else 1)
  {
    t := [];
    var loaded := os.LoadState();
    if loaded.Err? { r := Err(Unreadable); return; }
    t := [Load(loaded.value)];
    r := Ok(false);
    if loaded.value.None? { return; }
    var status, j := StatusFor(os, loaded.value.value);
    if status.StatusStale? {
      var ok, removed := os.RemoveState();
      t := t + j + [Remove(removed)];
      assert t[1..|t| - 1] == j;
      r := if ok then Ok(true) else Err(StorageFailed);
    } else {
      assert ([Load(loaded.value)] + j)[1..] == j;
      t := t + j;
    }
  }

  method CleanupStaleState(os: Machine, server: ServerId) returns (r: Result<bool, MountError>, ghost t: seq<Event>)
    requires os.Valid() && os.local == FRESH
    modifies os
    ensures os.Valid() && os.local == FRESH
    ensures if r == Err(LockFailed) then os.log == old(os.log)
            else os.log == old(os.log) + [Event.LockMount(server)] + t + [Event.UnlockMount] && Cleaned(t, r)
    ensures os.faults >= old(os.faults) + (if r.Ok? then 0 else 1)
  {
    t := [];
    var locked := os.LockMount(server);
    if !locked { r := Err(LockFailed); return; }
    r, t := CleanupLocked(os, server);
    os.UnlockMount();
  }
}
