/** Where the promises of the mount protocol end: concrete runs that break them. */
module MountRace {
  import opened Common
  import opened Process
  import opened MountProtocol
  import opened MountInvariant
  import opened MountSignals
  import opened MountExclusion

  /** Some run from the initial machine, in an environment that keeps its promises, ends in `s`. */
  ghost predicate Reachable(s: System) {
    exists run, actions :: OrderlyRun(run, actions) && Initial(run[0]) && run[|run| - 1] == s
  }

  const START := System(World(map[], map[], map[], map[], None, 0, map[]), map[])

  lemma StartReachable()
    ensures Reachable(START)
  {
    assert OrderlyRun([START], []);
  }

  lemma Extend(s: System, a: Action)
    requires Reachable(s) && Enabled(s, a) && Orderly(s, a)
    ensures Reachable(Apply(s, a))
  {
    var run, actions :| OrderlyRun(run, actions) && Initial(run[0]) && run[|run| - 1] == s;
    var run', actions' := run + [Apply(s, a)], actions + [a];
    forall i | 0 <= i < |actions'| ensures StepAt(run', actions', i) && Orderly(run'[i], actions'[i]) {
      if i < |actions| {
        assert StepAt(run, actions, i);
        assert run'[i] == run[i] && actions'[i] == actions[i] && run'[i + 1] == run[i + 1];
      }
    }
    assert OrderlyRun(run', actions');
  }

  /** An event that is neither a spawn nor a release needs no promise from the environment.
      `base` is the thread table without what `t` learned so far. */
  lemma Perform(s: System, base: map<Tid, Local>, t: Tid, l: Local, e: Event) returns (s': System)
    requires Reachable(s) && LocalOf(s, t) == l && (s.threads == base || s.threads == base[t := l])
    requires e != UnlockMount && Allowed(l, e) && Possible(s.world, t, l, e)
    ensures Reachable(s') && s'.world == Effect(s.world, t, l, e) && s'.threads == base[t := Next(l, e)]
  {
    assert Orderly(s, Do(t, e));
    Extend(s, Do(t, e));
    s' := Apply(s, Do(t, e));
  }

  lemma SpawnChild(s: System, base: map<Tid, Local>, t: Tid, l: Local, pid: nat, command: Args, startedAt: int)
    returns (s': System)
    requires Reachable(s) && s.threads == base[t := l] && Enabled(s, SpawnAt(t, pid, command, startedAt))
    requires forall u :: u in s.threads && s.threads[u].own.child.Some? ==> s.threads[u].own.child.value.started.Some?
    ensures Reachable(s')
    ensures s'.world == Start(s.world, pid, Proc(startedAt, command, false, s.world.next))
    ensures s'.threads == base[t := Next(l, Spawn(pid, command, s.world.next))]
  {
    assert Orderly(s, SpawnAt(t, pid, command, startedAt));
    Extend(s, SpawnAt(t, pid, command, startedAt));
    s' := Apply(s, SpawnAt(t, pid, command, startedAt));
  }

  /** Two mounts of different servers on one mountpoint. */
  ghost predicate Rivals(a: MountState, b: MountState, ca: Args, cb: Args, app: Args) {
    && a.serverId != b.serverId && a.pid != b.pid && Key(a) == Key(b)
    && a.phase.Starting? && b.phase.Starting? && a.startedAt == Some(1) && b.startedAt == Some(1)
    && ArgvMatches(ca, a, WINDOWS) && ArgvMatches(cb, b, WINDOWS) && NotAMountCommand(app)
  }

  /** An operation for `r` holding both locks, with the records it listed and cleared. */
  function Clear(r: MountState, listed: Option<set<ServerId>>, cleared: set<ServerId>): Local {
    Local(Some(r.serverId), UNKNOWN.(loaded := true), Survey(Key(r), listed, cleared, Idle))
  }

  /** An operation for `b` in the middle of its test of `a`'s record. */
  function Looking(a: MountState, b: MountState, check: Check): Local {
    Local(Some(b.serverId), UNKNOWN.(loaded := true), Survey(Key(b), Some({a.serverId}), {}, check))
  }

  /** What the operation of `r` knows once its Starting record is on disk. */
  function Owner(r: MountState, command: Args, serial: nat): Own {
    Own(true, Some(r), false, false, false, false, false, true, Some(Child(r.pid, command, serial, Some(r.startedAt))))
  }

  /** `t` takes both locks for `r` and is shown the records in `listed`. */
  lemma Claim(s: System, t: Tid, r: MountState, listed: set<ServerId>) returns (s': System)
    requires Reachable(s) && t !in s.threads && s.world.allocation.None?
    requires r.serverId !in s.world.mountLocks && r.serverId !in s.world.records && listed <= s.world.records.Keys
    ensures Reachable(s') && s'.threads == s.threads[t := Clear(r, Some(listed), {})]
    ensures s'.world == s.world.(mountLocks := s.world.mountLocks[r.serverId := t], allocation := Some(t))
  {
    var locked := Local(Some(r.serverId), UNKNOWN, NoSurvey);
    var loaded := Local(Some(r.serverId), UNKNOWN.(loaded := true), NoSurvey);
    var s1 := Perform(s, s.threads, t, FRESH, LockMount(r.serverId));
    var s2 := Perform(s1, s.threads, t, locked, Load(None));
    var s3 := Perform(s2, s.threads, t, loaded, LockAllocation(Key(r)));
    s' := Perform(s3, s.threads, t, Clear(r, None, {}), List(listed));
  }

  /** `t` spawns `r`'s process and records it before it reaches exec. */
  lemma Launch(s: System, base: map<Tid, Local>, t: Tid, r: MountState, command: Args, app: Args, listed: set<ServerId>)
    returns (s': System)
    requires Reachable(s) && s.threads == base[t := Clear(r, Some(listed), listed)]
    requires r.pid !in s.world.procs && (r.pid, 1) !in s.world.used
    requires r.startedAt == Some(1) && r.phase.Starting? && ArgvMatches(command, r, WINDOWS) && NotAMountCommand(app)
    requires forall u :: u in s.threads && s.threads[u].own.child.Some? ==> s.threads[u].own.child.value.started.Some?
    ensures Reachable(s')
    ensures s'.world == Start(s.world, r.pid, Proc(1, command, false, s.world.next))
                        .(records := s.world.records[r.serverId := r],
                          owners := s.world.owners[r.serverId := s.world.next])
    ensures s'.threads == base[t := Local(Some(r.serverId), Owner(r, command, s.world.next),
                                          Survey(Key(r), Some(listed), listed, Idle))]
  {
    var l := Clear(r, Some(listed), listed);
    var s2 := Spawned(s, base, t, l, r.pid, command, app);
    s' := Saved(s2, base, t, l, r, command, s.world.next);
  }

  /** `t` spawns a process and takes its first snapshot before it reaches exec. */
  lemma Spawned(s: System, base: map<Tid, Local>, t: Tid, l: Local, pid: nat, command: Args, app: Args)
    returns (s': System)
    requires Reachable(s) && s.threads == base[t := l] && Enabled(s, SpawnAt(t, pid, command, 1))
    requires l.own == UNKNOWN.(loaded := true) && NotAMountCommand(app)
    requires forall u :: u in s.threads && s.threads[u].own.child.Some? ==> s.threads[u].own.child.value.started.Some?
    ensures Reachable(s') && s'.world == Start(s.world, pid, Proc(1, command, false, s.world.next))
    ensures s'.threads
         == base[t := l.(own := l.own.(child := Some(Child(pid, command, s.world.next, Some(Some(1))))))]
  {
    var s1 := SpawnChild(s, base, t, l, pid, command, 1);
    var l1 := Next(l, Spawn(pid, command, s.world.next));
    FirstSnapshot(l, pid, command, s.world.next, app);
    s' := Perform(s1, base, t, l1, Observe(pid, Some(ProcessSnapshot(Some(app), 1))));
  }

  lemma FirstSnapshot(l: Local, pid: nat, command: Args, serial: nat, app: Args)
    requires l.own == UNKNOWN.(loaded := true) && l.server.Some?
    ensures Next(Next(l, Spawn(pid, command, serial)), Observe(pid, Some(ProcessSnapshot(Some(app), 1))))
         == l.(own := l.own.(child := Some(Child(pid, command, serial, Some(Some(1))))))
  {
  }

  lemma Saved(s: System, base: map<Tid, Local>, t: Tid, l: Local, r: MountState, command: Args, serial: nat)
    returns (s': System)
    requires Reachable(s) && l.server == Some(r.serverId) && l.survey.Survey? && l.survey.key == Key(r)
    requires s.threads
          == base[t := l.(own := UNKNOWN.(loaded := true, child := Some(Child(r.pid, command, serial, Some(Some(1))))))]
    requires r.startedAt == Some(1) && r.phase.Starting? && ArgvMatches(command, r, WINDOWS)
    ensures Reachable(s')
    ensures s'.world == s.world.(records := s.world.records[r.serverId := r],
                                 owners := s.world.owners[r.serverId := serial])
    ensures s'.threads == base[t := l.(own := Owner(r, command, serial))]
  {
    s' := Perform(s, base, t,
                  l.(own := UNKNOWN.(loaded := true, child := Some(Child(r.pid, command, serial, Some(Some(1)))))),
                  Save(r, true));
  }

  /** The machine while the first mount's process has not reached exec and the second one surveys. */
  predicate Contended(s: System, a: MountState, ca: Args, execed: bool) {
    && s.world.procs == map[a.pid := Proc(1, ca, execed, 0)]
    && s.world.records == map[a.serverId := a] && s.world.owners == map[a.serverId := 0]
    && s.world.allocation == Some(2) && s.world.next == 1 && s.world.used == map[(a.pid, 1) := 0]
    && 1 in s.threads && s.threads[1] == (if execed then FRESH else Local(Some(a.serverId), Owner(a, ca, 0), NoSurvey))
    && (execed <==> a.serverId !in s.world.mountLocks)
  }

  /** The reservation test misses a live mount when that mount gives up its lock between the
      snapshot of its PID and the probe of its lock: both records end up with their own
      processes running on one mountpoint, although every action was orderly. */
  lemma RaceBreaksExclusion(a: MountState, b: MountState, ca: Args, cb: Args, app: Args) returns (s: System)
    requires Rivals(a, b, ca, cb, app)
    ensures Shared(s, a.serverId, b.serverId)
  {
    var s1 := FirstMount(a, ca, app);
    var s2 := Claim(s1, 2, b, {a.serverId});
    var s3 := MissedProbe(s2, a, b, ca, app);
    s := Launch(s3, s3.threads, 2, b, cb, app, {a.serverId});
  }

  /** A listing that fails, or leaves out the first mount's record, lets the second mount through. */
  lemma UnlistedBreaksExclusion(a: MountState, b: MountState, ca: Args, cb: Args, app: Args) returns (s: System)
    requires Rivals(a, b, ca, cb, app)
    ensures Shared(s, a.serverId, b.serverId)
  {
    var s1 := FirstMount(a, ca, app);
    var s2 := Claim(s1, 2, b, {});
    s := Launch(s2, s2.threads, 2, b, cb, app, {});
  }

  /** So does a record that cannot be read. */
  lemma UnreadBreaksExclusion(a: MountState, b: MountState, ca: Args, cb: Args, app: Args) returns (s: System)
    requires Rivals(a, b, ca, cb, app)
    ensures Shared(s, a.serverId, b.serverId)
  {
    var s1 := FirstMount(a, ca, app);
    var s2 := Claim(s1, 2, b, {a.serverId});
    assert {} + {a.serverId} == {a.serverId};
    var s3 := Perform(s2, s2.threads, 2, Clear(b, Some({a.serverId}), {}), ReadOther(a.serverId, None));
    s := Launch(s3, s3.threads, 2, b, cb, app, {a.serverId});
  }

  /** So does a mount lock that is held but cannot be tested. */
  lemma UnprobedBreaksExclusion(a: MountState, b: MountState, ca: Args, cb: Args, app: Args) returns (s: System)
    requires Rivals(a, b, ca, cb, app)
    ensures Shared(s, a.serverId, b.serverId)
  {
    var s1 := FirstMount(a, ca, app);
    var s2 := Claim(s1, 2, b, {a.serverId});
    var s3 := Unidentified(s2, a, b, ca, app);
    assert {} + {a.serverId} == {a.serverId};
    var s4 := Perform(s3, s3.threads, 2, Looking(a, b, Snapped(a.serverId, a)), ProbeLock(false));
    s := Launch(s4, s4.threads, 2, b, cb, app, {a.serverId});
  }

  /** A reachable machine in which two records' own processes run on one mountpoint. */
  ghost predicate Shared(s: System, a: ServerId, b: ServerId) {
    && Reachable(s) && a != b && OwnLive(s.world, a) && OwnLive(s.world, b)
    && Key(s.world.records[a]) == Key(s.world.records[b])
  }

  // ----- concrete mounts -----

  /** A record of server `id` on the mountpoint `/m`. */
  function Example(id: string, pid: nat, startedAt: Option<int>): MountState {
    MountState(pid, id, "r:", "/m", "/log", "rclone", false, Starting, startedAt)
  }

  function ExampleCommand(): Args {
    BuildCommand(Example("a", 1, Some(1)), ["rclone"], "/cache", [])
  }

  lemma ExampleMatches(id: string, pid: nat, startedAt: Option<int>)
    ensures ArgvMatches(ExampleCommand(), Example(id, pid, startedAt), WINDOWS)
  {
    Fixed("rclone", WINDOWS);
    var state := Example(id, pid, startedAt);
    assert BuildCommand(state, ["rclone"], "/cache", []) == ExampleCommand();
    assert NormalizeAll(["rclone"], WINDOWS) == ["rclone"];
    BuiltCommandMatches(state, ["rclone"], "/cache", [], WINDOWS);
  }

  lemma ExampleApp()
    ensures NotAMountCommand(["app"])
  {
    Fixed("app", WINDOWS);
    assert NormalizeAll(["app"], WINDOWS) == ["app"];
  }

  lemma ExampleRivals()
    ensures Rivals(Example("a", 1, Some(1)), Example("b", 2, Some(1)), ExampleCommand(), ExampleCommand(), ["app"])
  {
    ExampleMatches("a", 1, Some(1));
    ExampleMatches("b", 2, Some(1));
    ExampleApp();
  }

  lemma ExampleRecycled()
    ensures Recycled(Example("a", 1, None), Example("b", 1, Some(1)), ExampleCommand(), ["app"])
  {
    ExampleMatches("a", 1, None);
    ExampleMatches("b", 1, Some(1));
    ExampleApp();
  }

  /** Servers `a` and `b` both end up mounted on `/m`: by the race, and by a failure to list, to read
      or to probe. */
  lemma ExclusionFails() returns (raced: System, unlisted: System, unread: System, unprobed: System)
    ensures Shared(raced, "a", "b") && Shared(unlisted, "a", "b") && Shared(unread, "a", "b")
            && Shared(unprobed, "a", "b")
  {
    ExampleRivals();
    var (a, b, c) := (Example("a", 1, Some(1)), Example("b", 2, Some(1)), ExampleCommand());
    raced := RaceBreaksExclusion(a, b, c, c, ["app"]);
    unlisted := UnlistedBreaksExclusion(a, b, c, c, ["app"]);
    unread := UnreadBreaksExclusion(a, b, c, c, ["app"]);
    unprobed := UnprobedBreaksExclusion(a, b, c, c, ["app"]);
  }

  /** And the record of `a`, which has no start time, fits the process of `b`. */
  lemma MatchExclusionFails() returns (s: System)
    ensures Reachable(s) && MatchLive(s.world, "a") && MatchLive(s.world, "b")
    ensures Key(s.world.records["a"]) == Key(s.world.records["b"])
  {
    ExampleRecycled();
    s := UntimedRecordMatchesStranger(Example("a", 1, None), Example("b", 1, Some(1)), ExampleCommand(), ["app"]);
  }

  // ----- a signal that comes too late -----

  /** Between the snapshot that verifies a process and the signal, the process can exit and its PID
      can pass to another one: the signal that is then sent meets a stranger. */
  lemma SignalMeetsStranger() returns (s: System)
    ensures Reachable(s) && Enabled(s, Do(1, Kill(1, false))) && 1 in s.world.procs
    ensures LocalOf(s, 1).own.record == Some(Example("a", 1, Some(1)))
    ensures OwnSerial(s.world, LocalOf(s, 1)) != Some(s.world.procs[1].serial)
    ensures s.world.procs[1].startedAt != 1
  {
    ExampleMatches("a", 1, Some(1));
    ExampleApp();
    s := StrangerMet(Example("a", 1, Some(1)), ExampleCommand(), ["app"]);
  }

  lemma StrangerMet(a: MountState, ca: Args, app: Args) returns (s: System)
    requires a.phase.Starting? && a.startedAt == Some(1) && ArgvMatches(ca, a, WINDOWS) && NotAMountCommand(app)
    ensures Reachable(s) && Enabled(s, Do(1, Kill(a.pid, false))) && a.pid in s.world.procs
    ensures LocalOf(s, 1).own.record == Some(a)
    ensures OwnSerial(s.world, LocalOf(s, 1)) != Some(s.world.procs[a.pid].serial)
    ensures s.world.procs[a.pid].startedAt != 1
  {
    var s1 := VerifiedMount(a, ca, app);
    Identifies(a, ca);
    var s2 := Gone(s1, a.pid);
    s := Replaced(s2, a.pid, Proc(2, ["other"], true, 1));
  }

  /** The operation that has just seen its own process, past exec. */
  function HavingSeen(a: MountState, ca: Args): Local {
    Next(Local(Some(a.serverId), Owner(a, ca, 0), NoSurvey), Observe(a.pid, Some(ProcessSnapshot(Some(ca), 1))))
  }

  lemma VerifiedMount(a: MountState, ca: Args, app: Args) returns (s: System)
    requires a.phase.Starting? && a.startedAt == Some(1) && ArgvMatches(ca, a, WINDOWS) && NotAMountCommand(app)
    ensures Reachable(s) && s.threads == map[1 := HavingSeen(a, ca)]
    ensures s.world.procs == map[a.pid := Proc(1, ca, true, 0)] && s.world.used == map[(a.pid, 1) := 0]
            && s.world.next == 1
  {
    var s1 := FirstMount(a, ca, app);
    var s2 := Reach(s1, a.pid);
    var l := Local(Some(a.serverId), Owner(a, ca, 0), NoSurvey);
    assert s2.threads == map[1 := l];
    s := Perform(s2, map[], 1, l, Observe(a.pid, Some(ProcessSnapshot(Some(ca), 1))));
  }

  /** Seeing its own argv, the operation may signal. */
  lemma Identifies(a: MountState, ca: Args)
    requires a.startedAt == Some(1) && ArgvMatches(ca, a, WINDOWS)
    ensures var l := HavingSeen(a, ca);
      && l.server == Some(a.serverId) && l.survey.NoSurvey? && l.own.verified && l.own.record == Some(a)
      && l.own.child == Some(Child(a.pid, ca, 0, Some(a.startedAt)))
  {
  }

  lemma Replaced(s: System, pid: nat, p: Proc) returns (s': System)
    requires Reachable(s) && Enabled(s, Stranger(pid, p))
    requires forall u :: u in s.threads && s.threads[u].own.child.Some? ==> s.threads[u].own.child.value.started.Some?
    ensures Reachable(s') && s'.threads == s.threads && s'.world == Start(s.world, pid, p)
  {
    assert Orderly(s, Stranger(pid, p));
    Extend(s, Stranger(pid, p));
    s' := Apply(s, Stranger(pid, p));
  }

  // ----- the steps of these runs -----

  lemma FirstMount(a: MountState, ca: Args, app: Args) returns (s: System)
    requires a.phase.Starting? && a.startedAt == Some(1) && ArgvMatches(ca, a, WINDOWS) && NotAMountCommand(app)
    ensures Reachable(s) && Contended(s.(world := s.world.(allocation := Some(2))), a, ca, false)
    ensures s.world.allocation.None? && s.threads.Keys == {1} && s.world.mountLocks == map[a.serverId := 1]
  {
    StartReachable();
    var s1 := Claim(START, 1, a, {});
    var s2 := Launch(s1, map[], 1, a, ca, app, {});
    s := Perform(s2, map[], 1, Local(Some(a.serverId), Owner(a, ca, 0), Survey(Key(a), Some({}), {}, Idle)),
                 UnlockAllocation);
  }

  /** The second operation looks at the first one's PID before that execs. */
  lemma Unidentified(s0: System, a: MountState, b: MountState, ca: Args, app: Args) returns (s: System)
    requires Reachable(s0) && Contended(s0, a, ca, false) && a.serverId != b.serverId && Key(a) == Key(b)
    requires a.phase.Starting? && a.startedAt == Some(1) && NotAMountCommand(app)
    requires 2 in s0.threads && s0.threads[2] == Clear(b, Some({a.serverId}), {}) && s0.threads.Keys == {1, 2}
    ensures Reachable(s) && s.world == s0.world && s.threads == s0.threads[2 := Looking(a, b, Snapped(a.serverId, a))]
  {
    NotMountNeverMatches(app, a);
    var s1 := Perform(s0, s0.threads, 2, Clear(b, Some({a.serverId}), {}), ReadOther(a.serverId, Some(a)));
    s := Perform(s1, s0.threads, 2, Looking(a, b, Reading(a.serverId, a)),
                 ObserveOther(Some(ProcessSnapshot(Some(app), 1))));
  }

  /** Then the first one execs and leaves, and only now the second one probes its lock. */
  lemma MissedProbe(s0: System, a: MountState, b: MountState, ca: Args, app: Args) returns (s: System)
    requires Reachable(s0) && Contended(s0, a, ca, false) && a.serverId != b.serverId && Key(a) == Key(b)
    requires a.phase.Starting? && a.startedAt == Some(1) && NotAMountCommand(app)
    requires 2 in s0.threads && s0.threads[2] == Clear(b, Some({a.serverId}), {}) && s0.threads.Keys == {1, 2}
    ensures Reachable(s) && Contended(s, a, ca, true)
    ensures 2 in s.threads && s.threads[2] == Clear(b, Some({a.serverId}), {a.serverId}) && s.threads.Keys == {1, 2}
  {
    var s1 := Unidentified(s0, a, b, ca, app);
    var s2 := ExecAndLeave(s1, a.pid, a.serverId);
    assert {} + {a.serverId} == {a.serverId};
    s := Perform(s2, s2.threads, 2, Looking(a, b, Snapped(a.serverId, a)), ProbeLock(false));
  }

  lemma ExecAndLeave(s0: System, pid: nat, sid: ServerId) returns (s: System)
    requires Reachable(s0) && 1 in s0.threads && s0.threads[1].server == Some(sid) && s0.threads[1].survey.NoSurvey?
    requires pid in s0.world.procs && s0.threads[1].own.child.Some? && s0.threads[1].own.child.value.pid == pid
    ensures Reachable(s)
    ensures s.world == s0.world.(procs := s0.world.procs[pid := s0.world.procs[pid].(execed := true)],
                                 mountLocks := s0.world.mountLocks - {sid})
    ensures s.threads == s0.threads[1 := FRESH]
  {
    Extend(s0, Exec(pid));
    s := Apply(s0, Exec(pid));
    assert ExecBeforeRelease(s, Do(1, UnlockMount));
    Extend(s, Do(1, UnlockMount));
    s := Apply(s, Do(1, UnlockMount));
  }

  /** Two records of one mountpoint where the second process has taken over the PID that the
      first record names without a start time. */
  ghost predicate Recycled(a: MountState, b: MountState, cb: Args, app: Args) {
    && a.serverId != b.serverId && a.pid == b.pid && Key(a) == Key(b)
    && a.phase.Starting? && a.startedAt == None && b.phase.Starting? && b.startedAt == Some(1)
    && ArgvMatches(cb, a, WINDOWS) && ArgvMatches(cb, b, WINDOWS) && NotAMountCommand(app)
  }

  /** Without a recorded start time the code's own test can fit two records of one mountpoint:
      the spawned process was gone before its first snapshot, its operation crashed, and the
      PID came back with the same command line. */
  lemma UntimedRecordMatchesStranger(a: MountState, b: MountState, cb: Args, app: Args) returns (s: System)
    requires Recycled(a, b, cb, app)
    ensures Reachable(s)
    ensures MatchLive(s.world, a.serverId) && MatchLive(s.world, b.serverId)
    ensures Key(s.world.records[a.serverId]) == Key(s.world.records[b.serverId])
  {
    var s1 := UntimedRecord(a, cb);
    var s2 := Claim(s1, 2, b, {a.serverId});
    var s3 := SkipDead(s2, a, b);
    var s4 := Launch(s3, s3.threads, 2, b, cb, app, {a.serverId});
    s := Reach(s4, b.pid);
  }

  lemma Reach(s: System, pid: nat) returns (s': System)
    requires Reachable(s) && pid in s.world.procs
    ensures Reachable(s') && s'.threads == s.threads
    ensures s'.world == s.world.(procs := s.world.procs[pid := s.world.procs[pid].(execed := true)])
  {
    assert Orderly(s, Exec(pid));
    Extend(s, Exec(pid));
    s' := Apply(s, Exec(pid));
  }

  lemma SkipDead(s0: System, a: MountState, b: MountState) returns (s: System)
    requires Reachable(s0) && a.serverId != b.serverId && Key(a) == Key(b) && a.phase.Starting?
    requires s0.world.records == map[a.serverId := a] && a.pid !in s0.world.procs && a.serverId !in s0.world.mountLocks
    requires 2 in s0.threads && s0.threads[2] == Clear(b, Some({a.serverId}), {})
    ensures Reachable(s) && s.world == s0.world
            && s.threads == s0.threads[2 := Clear(b, Some({a.serverId}), {a.serverId})]
  {
    var s1 := Perform(s0, s0.threads, 2, Clear(b, Some({a.serverId}), {}), ReadOther(a.serverId, Some(a)));
    var s2 := Perform(s1, s0.threads, 2, Looking(a, b, Reading(a.serverId, a)), ObserveOther(None));
    assert {} + {a.serverId} == {a.serverId};
    s := Perform(s2, s0.threads, 2, Looking(a, b, Snapped(a.serverId, a)), ProbeLock(false));
  }

  /** A mount whose process vanished before the first snapshot, and which then crashed. */
  lemma UntimedRecord(a: MountState, ca: Args) returns (s: System)
    requires a.phase.Starting? && a.startedAt == None && ArgvMatches(ca, a, WINDOWS)
    ensures Reachable(s) && s.threads.Keys == {1} && s.threads[1] == FRESH
    ensures s.world.procs == map[] && s.world.records == map[a.serverId := a] && s.world.allocation.None?
    ensures s.world.mountLocks == map[] && s.world.used == map[(a.pid, 0) := 0]
  {
    StartReachable();
    var s1 := Claim(START, 1, a, {});
    var s2 := SpawnGone(s1, a, ca);
    var l := Clear(a, Some({}), {});
    var s3 := Perform(s2, map[], 1, l.(own := UNKNOWN.(loaded := true, child := Some(Child(a.pid, ca, 0, Some(None))))),
                      Save(a, true));
    s := Leave(s3);
  }

  lemma SpawnGone(s1: System, a: MountState, ca: Args) returns (s: System)
    requires Reachable(s1) && s1.threads == map[1 := Clear(a, Some({}), {})]
    requires s1.world.procs == map[] && s1.world.next == 0 && s1.world.used == map[]
    ensures Reachable(s)
    ensures s.threads
         == map[1 := Clear(a, Some({}), {}).(own := UNKNOWN.(loaded := true,
                                                             child := Some(Child(a.pid, ca, 0, Some(None)))))]
    ensures s.world == s1.world.(procs := map[], next := 1, used := map[(a.pid, 0) := 0])
  {
    var l := Clear(a, Some({}), {});
    NeverSeen(l, a.pid, ca);
    var s3 := SpawnedGone(s1, l, a.pid, ca);
    s := Perform(s3, map[], 1, Next(l, Spawn(a.pid, ca, 0)), Observe(a.pid, None));
  }

  lemma SpawnedGone(s1: System, l: Local, pid: nat, ca: Args) returns (s: System)
    requires Reachable(s1) && s1.threads == map[1 := l] && Enabled(s1, SpawnAt(1, pid, ca, 0))
    requires s1.world.procs == map[] && s1.world.next == 0 && s1.world.used == map[] && l.own.child.None?
    ensures Reachable(s) && s.threads == map[1 := Next(l, Spawn(pid, ca, 0))]
    ensures s.world == s1.world.(procs := map[], next := 1, used := map[(pid, 0) := 0])
  {
    var s2 := SpawnChild(s1, map[], 1, l, pid, ca, 0);
    s := Gone(s2, pid);
  }

  lemma NeverSeen(l: Local, pid: nat, command: Args)
    requires l.own == UNKNOWN.(loaded := true) && l.survey.Survey? && l.survey.check.Idle?
    ensures Next(Next(l, Spawn(pid, command, 0)), Observe(pid, None))
         == l.(own := UNKNOWN.(loaded := true, child := Some(Child(pid, command, 0, Some(None)))))
  {
  }

  lemma Gone(s: System, pid: nat) returns (s': System)
    requires Reachable(s) && pid in s.world.procs
    ensures Reachable(s') && s'.threads == s.threads && s'.world == s.world.(procs := s.world.procs - {pid})
  {
    assert Orderly(s, Exit(pid));
    Extend(s, Exit(pid));
    s' := Apply(s, Exit(pid));
  }

  lemma Leave(s0: System) returns (s: System)
    requires Reachable(s0) && s0.threads.Keys == {1} && s0.world.procs == map[]
    requires forall sid :: sid in s0.world.mountLocks ==> s0.world.mountLocks[sid] == 1
    requires s0.world.allocation == Some(1)
    ensures Reachable(s) && s.threads == map[1 := FRESH]
    ensures s.world == s0.world.(mountLocks := map[], allocation := None)
  {
    assert Orderly(s0, Crash(1));
    Extend(s0, Crash(1));
    s := Apply(s0, Crash(1));
  }
}
