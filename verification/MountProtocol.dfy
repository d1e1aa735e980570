/** What one mount, unmount or cleanup operation may do, event by event, and what those
    events do to the machine all operations share.

    `Allowed` and `Next` are the discipline of a single operation: the runtime's methods
    (module MountRuntime) are verified to emit only allowed events, and module
    MountExclusion interleaves any number of operations that follow the discipline. */
module MountProtocol {
  import opened Common
  import opened Process

  type Tid = int

  /** The host platform; every statement holds for both. */
  const WINDOWS: bool

  datatype Event =
    | LockMount(server: ServerId)
    | UnlockMount
    | LockAllocation(key: string)
    | UnlockAllocation
    | List(servers: set<ServerId>)
    | ReadOther(server: ServerId, other: Option<MountState>)
    | ObserveOther(snapshot: Option<ProcessSnapshot>)
    | ProbeLock(held: bool)
    | Load(state: Option<MountState>)
    | Observe(pid: nat, snapshot: Option<ProcessSnapshot>)
    | Spawn(spawned: nat, command: Args, serial: nat)
    | Save(saved: MountState, written: bool)
    | Remove(removed: bool)
    | RcAnswer(answer: Option<nat>)
    | Quit
    | Kill(target: nat, force: bool)
    | Ready(ready: bool)
    | Clock(now: int)

  /** Progress of the reservation test on the one record it is looking at. */
  datatype Check =
    | Idle
    | Reading(server: ServerId, other: MountState)
    | Snapped(server: ServerId, other: MountState)
    | Reserved

  /** The reservation test made under the allocation lock for mountpoint `key`. */
  datatype Survey =
    | NoSurvey
    | Survey(key: string, listed: Option<set<ServerId>>, cleared: set<ServerId>, check: Check)

  /** The process an operation spawned; `serial` is its incarnation number, which only the
      model knows, and `started` is the start time once the first snapshot was taken. */
  datatype Child = Child(pid: nat, command: Args, serial: nat, started: Option<Option<int>>)

  /** What an operation knows about its own record and process. */
  datatype Own = Own(
    loaded: bool,
    record: Option<MountState>,
    dead: bool,
    startOk: bool,
    rcOk: bool,
    verified: bool,
    execSeen: bool,
    saved: bool,
    child: Option<Child>)

  /** An operation: the server whose mount lock it holds, and what it knows. */
  datatype Local = Local(server: Option<ServerId>, own: Own, survey: Survey)

  const UNKNOWN := Own(false, None, false, false, false, false, false, false, None)
  const FRESH := Local(None, UNKNOWN, NoSurvey)

  function Key(state: MountState): string {
    PathKey(state.mountpoint, WINDOWS)
  }

  /** The snapshot proves that the recorded process is not the one the record was made for.
      A readable mismatch proves nothing while our own child may not have reached exec. */
  predicate Refutes(o: Own, snapshot: Option<ProcessSnapshot>)
    requires o.record.Some?
  {
    || snapshot.None?
    || !StartTimeMatches(o.record.value, snapshot.value)
    || (o.child.None? && snapshot.value.arguments.Some?
        && !ArgvMatches(snapshot.value.arguments.value, o.record.value, WINDOWS))
  }

  predicate AllowedOwn(server: ServerId, o: Own, v: Survey, e: Event) {
    match e
    case Load(_) => !o.loaded && o.child.None?
    case Observe(_, _) => true
    case Spawn(_, _, _) =>
      && o.loaded && o.record.None? && o.child.None?
      && v.Survey? && v.listed.Some? && v.check.Idle?
      && (forall sid :: sid in v.listed.value && sid != server ==> sid in v.cleared)
    case Save(state, _) =>
      && o.child.Some? && state.serverId == server
      && state.pid == o.child.value.pid
      && Some(state.startedAt) == o.child.value.started
      && ArgvMatches(o.child.value.command, state, WINDOWS)
      && (if o.record.None? then state.phase.Starting? && v.Survey? && v.key == Key(state)
          else o.saved && o.execSeen && state == o.record.value.(phase := Mounted))
    case Remove(_) => o.record.Some? && o.dead
    case RcAnswer(_) => o.record.Some?
    case Quit => o.record.Some? && o.startOk && o.rcOk
    case Kill(pid, _) => o.record.Some? && o.verified && pid == o.record.value.pid
    case _ => false
  }

  predicate AllowedSurvey(v: Survey, e: Event) {
    match e
    case UnlockAllocation => v.Survey?
    case List(_) => v.Survey? && v.listed.None?
    case ReadOther(sid, _) => v.Survey? && v.listed.Some? && sid in v.listed.value && v.check.Idle?
    case ObserveOther(_) => v.Survey? && v.check.Reading?
    case ProbeLock(_) => v.Survey? && v.check.Snapped?
    case _ => false
  }

  predicate Allowed(l: Local, e: Event) {
    match e
    case LockMount(_) => l == FRESH
    case UnlockMount => l.server.Some? && l.survey.NoSurvey?
    case LockAllocation(_) => l.server.Some? && l.survey.NoSurvey? && l.own.child.None?
    case UnlockAllocation => l.survey.Survey?
    case List(_) => l.own.child.None? && AllowedSurvey(l.survey, e)
    case ReadOther(_, _) => l.own.child.None? && AllowedSurvey(l.survey, e)
    case ObserveOther(_) => AllowedSurvey(l.survey, e)
    case ProbeLock(_) => AllowedSurvey(l.survey, e)
    case Ready(_) => true
    case Clock(_) => true
    case _ => l.server.Some? && AllowedOwn(l.server.value, l.own, l.survey, e)
  }

  function NextObserve(o: Own, pid: nat, snapshot: Option<ProcessSnapshot>): Own {
    if o.child.Some? && o.child.value.started.None? && o.child.value.pid == pid then
      var started := if snapshot.Some? then Some(snapshot.value.startedAt) else None;
      o.(child := Some(o.child.value.(started := Some(started))))
    else if o.record.Some? && o.record.value.pid == pid then
      var startOk := snapshot.Some? && StartTimeMatches(o.record.value, snapshot.value);
      var good := Verified(o.record.value, snapshot, WINDOWS);
      o.(dead := o.dead || Refutes(o, snapshot), startOk := startOk, rcOk := o.rcOk && startOk,
         verified := good, execSeen := o.execSeen || (good && o.child.Some?))
    else o
  }

  function NextOwn(o: Own, e: Event): Own {
    var o := o.(verified := false);
    match e
    case Load(state) => o.(loaded := true, record := state, dead := false, startOk := false, rcOk := false)
    case Observe(pid, snapshot) => NextObserve(o, pid, snapshot)
    case Spawn(pid, command, serial) => o.(child := Some(Child(pid, command, serial, None)))
    case Save(state, written) =>
      o.(record := Some(state), dead := false, startOk := false, rcOk := false, saved := o.saved || written)
    case Remove(removed) => if removed then o.(record := None, saved := false) else o
    case RcAnswer(answer) => o.(rcOk := o.record.Some? && answer == Some(o.record.value.pid))
    case _ => o
  }

  function NextSurvey(server: Option<ServerId>, v: Survey, e: Event): Survey {
    match e
    case LockAllocation(key) => Survey(key, None, {}, Idle)
    case UnlockAllocation => NoSurvey
    case List(servers) => if v.Survey? then v.(listed := Some(servers)) else v
    case ReadOther(sid, other) =>
      if v.NoSurvey? then v
      else if other.None? || Some(other.value.serverId) == server || Key(other.value) != v.key
      then v.(cleared := v.cleared + {sid})
      else v.(check := Reading(sid, other.value))
    case ObserveOther(snapshot) =>
      if v.NoSurvey? || !v.check.Reading? then v
      else if MayBeOwned(v.check.other, snapshot, WINDOWS) then v.(check := Reserved)
      else if v.check.other.phase.Starting? then v.(check := Snapped(v.check.server, v.check.other))
      else v.(cleared := v.cleared + {v.check.server}, check := Idle)
    case ProbeLock(held) =>
      if v.NoSurvey? || !v.check.Snapped? then v
      else if held then v.(check := Reserved)
      else v.(cleared := v.cleared + {v.check.server}, check := Idle)
    case _ => v
  }

  function Next(l: Local, e: Event): Local {
    match e
    case LockMount(server) => l.(server := Some(server))
    case UnlockMount => FRESH
    case _ => Local(l.server, NextOwn(l.own, e), NextSurvey(l.server, l.survey, e))
  }

  // ---------------------------------------------------------------- the shared machine

  /** A running process. Until it reaches `exec`, a snapshot shows the spawner's own argv. */
  datatype Proc = Proc(startedAt: int, command: Args, execed: bool, serial: nat)

  /** `owners` remembers which incarnation each record was written for and `used` which
      incarnation each (PID, start time) pair ever named; the program sees neither. */
  datatype World = World(
    procs: map<nat, Proc>,
    records: map<ServerId, MountState>,
    owners: map<ServerId, nat>,
    mountLocks: map<ServerId, Tid>,
    allocation: Option<Tid>,
    next: nat,
    used: map<(nat, int), nat>)

  datatype System = System(world: World, threads: map<Tid, Local>)

  function LocalOf(s: System, t: Tid): Local {
    if t in s.threads then s.threads[t] else FRESH
  }

  datatype Action =
    | Do(thread: Tid, event: Event)
    | SpawnAt(thread: Tid, pid: nat, command: Args, startedAt: int)
    | Exec(pid: nat)
    | Exit(pid: nat)
    | Stranger(pid: nat, process: Proc)
    | Crash(thread: Tid)

  /** No state's subcommand can be found in the spawner's own argv. */
  predicate NotAMountCommand(arguments: Args) {
    var args := NormalizeAll(arguments, WINDOWS);
    Subcommand(true) !in args && Subcommand(false) !in args
  }

  predicate HonestSnapshot(w: World, pid: nat, snapshot: Option<ProcessSnapshot>) {
    && (snapshot.Some? <==> pid in w.procs)
    && (snapshot.Some? ==>
          && snapshot.value.startedAt == w.procs[pid].startedAt
          && (snapshot.value.arguments.Some? ==>
                if w.procs[pid].execed then snapshot.value.arguments.value == w.procs[pid].command
                else NotAMountCommand(snapshot.value.arguments.value)))
  }

  function Lookup<K, V>(m: map<K, V>, k: K): Option<V> {
    if k in m then Some(m[k]) else None
  }

  /** The machine lets the event happen now and answers truthfully, except that the reservation test
      may fail to be shown something: a record that is not listed or cannot be read counts as
      absent, and a lock that cannot be tested as free. */
  predicate Possible(w: World, t: Tid, l: Local, e: Event) {
    match e
    case LockMount(server) => server !in w.mountLocks
    case LockAllocation(_) => w.allocation.None?
    case Load(state) => l.server.Some? && state == Lookup(w.records, l.server.value)
    case Observe(pid, snapshot) => HonestSnapshot(w, pid, snapshot)
    case List(servers) => servers <= w.records.Keys
    case ReadOther(sid, other) => other.Some? ==> other == Lookup(w.records, sid)
    case ObserveOther(snapshot) =>
      l.survey.Survey? && l.survey.check.Reading? && HonestSnapshot(w, l.survey.check.other.pid, snapshot)
    case ProbeLock(held) =>
      l.survey.Survey? && l.survey.check.Snapped? && (held ==> l.survey.check.server in w.mountLocks)
    case Spawn(_, _, _) => false // see SpawnAt
    case _ => true
  }

  function Effect(w: World, t: Tid, l: Local, e: Event): World {
    match e
    case LockMount(server) => w.(mountLocks := w.mountLocks[server := t])
    case UnlockMount => if l.server.Some? then w.(mountLocks := w.mountLocks - {l.server.value}) else w
    case LockAllocation(_) => w.(allocation := Some(t))
    case UnlockAllocation => w.(allocation := None)
    case Save(state, written) =>
      if written && l.own.child.Some?
      then w.(records := w.records[state.serverId := state],
              owners := w.owners[state.serverId := l.own.child.value.serial])
      else w
    case Remove(removed) =>
      if removed && l.server.Some? then w.(records := w.records - {l.server.value}) else w
    case _ => w
  }

  predicate Enabled(s: System, a: Action) {
    var w := s.world;
    match a
    case Do(t, e) => Allowed(LocalOf(s, t), e) && Possible(w, t, LocalOf(s, t), e)
    case SpawnAt(t, pid, command, startedAt) =>
      && Allowed(LocalOf(s, t), Spawn(pid, command, w.next))
      && pid !in w.procs && (pid, startedAt) !in w.used
    case Exec(pid) => pid in w.procs
    case Exit(pid) => pid in w.procs
    case Stranger(pid, p) => pid !in w.procs && (pid, p.startedAt) !in w.used && p.execed && p.serial == w.next
    case Crash(t) => true
  }

  function Start(w: World, pid: nat, p: Proc): World {
    w.(procs := w.procs[pid := p], next := w.next + 1, used := w.used[(pid, p.startedAt) := p.serial])
  }

  /** The machine after an enabled action. */
  function Apply(s: System, a: Action): System {
    var w := s.world;
    match a
    case Do(t, e) => System(Effect(w, t, LocalOf(s, t), e), s.threads[t := Next(LocalOf(s, t), e)])
    case SpawnAt(t, pid, command, startedAt) =>
      System(Start(w, pid, Proc(startedAt, command, false, w.next)),
             s.threads[t := Next(LocalOf(s, t), Spawn(pid, command, w.next))])
    case Exec(pid) =>
      if pid in w.procs then s.(world := w.(procs := w.procs[pid := w.procs[pid].(execed := true)])) else s
    case Exit(pid) => s.(world := w.(procs := w.procs - {pid}))
    case Stranger(pid, p) => s.(world := Start(w, pid, p))
    case Crash(t) =>
      var locks := map sid | sid in w.mountLocks && w.mountLocks[sid] != t :: w.mountLocks[sid];
      System(w.(mountLocks := locks, allocation := if w.allocation == Some(t) then None else w.allocation),
             s.threads[t := FRESH])
  }

  /** The action makes `t` give up its mount lock. */
  predicate Releases(a: Action, t: Tid) {
    a == Do(t, UnlockMount) || a == Crash(t)
  }

  // Assumptions about the environment, one predicate each.

  /** A spawned process reaches exec before its spawner gives up the mount lock. */
  ghost predicate ExecBeforeRelease(s: System, a: Action) {
    forall t :: t in s.threads && Releases(a, t) && s.threads[t].own.child.Some? ==>
      var c := s.threads[t].own.child.value;
      c.pid in s.world.procs && s.world.procs[c.pid].serial == c.serial ==> s.world.procs[c.pid].execed
  }

  /** A PID is not handed out again before its spawner took the first snapshot
      (on Unix the unreaped child keeps it). */
  ghost predicate PidHeldUntilSnapshot(s: System, a: Action) {
    (a.SpawnAt? || a.Stranger?) ==>
      forall t :: t in s.threads && s.threads[t].own.child.Some? && s.threads[t].own.child.value.started.None?
        ==> s.threads[t].own.child.value.pid != a.pid
  }

  ghost predicate Orderly(s: System, a: Action) {
    ExecBeforeRelease(s, a) && PidHeldUntilSnapshot(s, a)
  }

  /** The i-th action is enabled and leads to the next machine. */
  predicate StepAt(run: seq<System>, actions: seq<Action>, i: nat) {
    i < |actions| && i + 1 < |run| && Enabled(run[i], actions[i]) && run[i + 1] == Apply(run[i], actions[i])
  }

  /** `run[i]` is the machine before the i-th action. */
  predicate IsRun(run: seq<System>, actions: seq<Action>) {
    && |run| == |actions| + 1
    && forall i {:trigger StepAt(run, actions, i)} :: 0 <= i < |actions| ==> StepAt(run, actions, i)
  }

  predicate Initial(s: System) {
    s.threads == map[] && s.world == World(map[], map[], map[], map[], None, 0, map[])
  }
}
