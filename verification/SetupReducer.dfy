/** The setup of a SAI connection as a reducer: messages from the user and replies from the
    network, of which only the current ones may change anything. */
module SetupReducer {
  import opened Common
  import opened Process
  import opened MountRoots

  const WRAP: nat := 0x1_0000_0000_0000_0000

  /** `u64::wrapping_add(1)`. */
  function Next(n: nat): nat {
    (n + 1) % WRAP
  }

  datatype Connection = Connection(host: string, port: nat, username: string)

  datatype Target = Target(editingId: Option<string>, host: string, port: nat, user: string) {
    predicate Matches(c: Connection) {
      && |host| == |c.host| && (forall i :: 0 <= i < |host| ==> Lower(host[i]) == Lower(c.host[i]))
      && port == c.port && user == c.username
    }
  }

  datatype Session = Session(connections: seq<Connection>, hasMountDirectoryDiscovery: bool)

  /** What the reducer reads of the connection being edited. */
  datatype Draft = Draft(target: Option<Target>, mounts: seq<string>, primaryMount: bool, remotePath: string,
                         mountpoint: string, editing: bool)

  datatype Message =
    | Start | ChooseDirectories | Restart | Cancel
    | LoginStarted(generation: nat, login: Result<(), Error>)
    | Authorized(generation: nat, session: Result<Session, Error>)
    | Select(site: Connection)
    | LoadMountRoots | RestartMountRoots | UseDirectories
    | MountRootsLoaded(generation: nat, request: nat, page: Result<MountRootPage, Error>)
    | ToggleMountRoot(id: string, checked: bool)
    | Enroll | Reauthorize
    | Finished(generation: nat, configured: Result<string, Error>)

  datatype Task =
    | NoTask
    | StartLogin(generation: nat, directoriesOnly: bool)
    | FinishLogin(generation: nat)
    | FetchRoots(generation: nat, request: nat, cursor: Option<string>)
    | RunEnrollment(generation: nat, replaceRetired: bool)

  datatype Outcome =
    | NoOutcome
    | Configured(configured: string, roots: seq<MountRoot>)
    | Directories(target: Target, roots: seq<MountRoot>)

  datatype Setup = Setup(
    generation: nat, login: bool, session: Option<Session>, selected: Option<Connection>, pending: bool, ready: bool,
    error: Option<Error>, roots: seq<MountRoot>, selectedRoots: set<string>, rootsCursor: Option<string>,
    rootsLoaded: bool, rootsPending: bool, rootsError: Option<Error>, rootsGeneration: nat, existing: set<string>,
    mountSlots: nat,
    target: Option<Target>)

  function Default(generation: nat): Setup {
    Setup(generation, false, None, None, false, false, None, [], {}, None, false, false, None, 0, {}, 0, None)
  }

  // ----- what a message does -----

  function ResetRoots(s: Setup): Setup {
    s.(rootsGeneration := Next(s.rootsGeneration), roots := [], selectedRoots := {}, rootsCursor := None,
       rootsLoaded := false, rootsPending := false, rootsError := None)
  }

  function Reset(s: Setup): Setup {
    Default(Next(s.generation))
  }

  predicate CanLoadRoots(s: Setup) {
    && s.session.Some? && s.selected.Some?
    && s.session.value.hasMountDirectoryDiscovery && !(s.rootsLoaded && s.rootsCursor.None?)
  }

  function LoadRoots(s: Setup): (Setup, Task) {
    if !CanLoadRoots(s) then (s, NoTask)
    else
      (s.(rootsGeneration := Next(s.rootsGeneration), rootsPending := true, rootsError := None),
       FetchRoots(s.generation, Next(s.rootsGeneration), s.rootsCursor))
  }

  function Filter(connections: seq<Connection>, target: Option<Target>): seq<Connection> {
    if connections == [] then []
    else
      var first := connections[0];
      (if target.None? || target.value.Matches(first) then [first] else []) + Filter(connections[1..], target)
  }

  function AvailableConnections(s: Setup): seq<Connection> {
    if s.session.None? then [] else Filter(s.session.value.connections, s.target)
  }

  predicate SelectionReady(s: Setup) {
    s.selectedRoots == {} || (!s.rootsPending && s.rootsError.None?)
  }

  function Additional(s: Setup): set<string> {
    set r | r in s.roots && r.id in s.selectedRoots && r.path !in s.existing :: r.path
  }

  function SelectedOf(roots: seq<MountRoot>, ids: set<string>): seq<MountRoot> {
    if roots == [] then [] else (if roots[0].id in ids then [roots[0]] else []) + SelectedOf(roots[1..], ids)
  }

  function FindRoot(roots: seq<MountRoot>, id: string): (r: Option<MountRoot>)
    ensures r.Some? ==> r.value in roots && r.value.id == id
    ensures r.None? ==> forall x <- roots :: x.id != id
  {
    if roots == [] then None else if roots[0].id == id then Some(roots[0]) else FindRoot(roots[1..], id)
  }

  function Slots(draft: Draft): nat {
    var used := |draft.mounts| + if draft.primaryMount then 1 else 0;
    (if used <= 64 then 64 - used else 0)
    + if !draft.editing && draft.primaryMount && draft.remotePath == "" && draft.mountpoint == "" then 1 else 0
  }

  function Paths(draft: Draft): set<string> {
    (set p | p in draft.mounts) + if draft.primaryMount then {draft.remotePath} else {}
  }

  function Begin(s: Setup, target: Option<Target>, draft: Draft): (Setup, Task) {
    var b := Reset(s).(target := target, existing := Paths(draft), mountSlots := Slots(draft), pending := true);
    (b, StartLogin(b.generation, target.Some?))
  }

  /** Signed in: the first site is chosen, but a directory-only setup takes only the single match. */
  function SignedIn(s: Setup, session: Session): Setup {
    var a := s.(pending := false, login := false, session := Some(session));
    var choices := AvailableConnections(a);
    a.(selected := if (a.target.None? || |choices| == 1) && choices != [] then Some(choices[0]) else None)
  }

  predicate NewIds(s: Setup, page: MountRootPage) {
    forall item <- page.items :: forall r <- s.roots :: r.id != item.id
  }

  function Loaded(s: Setup, page: Result<MountRootPage, Error>): Setup {
    var a := s.(rootsPending := false);
    match page
    case Ok(p) =>
      if NewIds(s, p) then a.(roots := s.roots + p.items, rootsCursor := p.nextCursor, rootsLoaded := true)
      else a.(rootsError := Some(Contract))
    case Err(e) => if e == DirectoryChanged then ResetRoots(a).(rootsError := Some(e)) else a.(rootsError := Some(e))
  }

  function Toggle(s: Setup, id: string, checked: bool): Setup {
    if !checked then s.(selectedRoots := s.selectedRoots - {id})
    else
      match FindRoot(s.roots, id)
      case None => s
      case Some(root) =>
        if s.rootsError != Some(DirectoryChanged) && (root.path in s.existing || |Additional(s)| < s.mountSlots)
        then s.(selectedRoots := s.selectedRoots + {id}) else s
  }

  function BeginEnrollment(s: Setup, replaceRetired: bool): (Setup, Task) {
    if replaceRetired && s.error !in {Some(KeyRevoked), Some(KeyExpired)} then (s, NoTask)
    else if s.session.None? || s.selected.None? then (s, NoTask)
    else
      var generation := Next(s.generation);
      (s.(rootsPending := false, rootsGeneration := Next(s.rootsGeneration), pending := true, error := None,
          generation := generation),
       RunEnrollment(generation, replaceRetired))
  }

  function Finish(s: Setup, configured: Result<string, Error>): (Setup, Outcome) {
    match configured
    case Ok(c) => (Reset(s).(ready := true), Configured(c, SelectedOf(s.roots, s.selectedRoots)))
    case Err(e) => ((if e == Expired then Reset(s) else s.(pending := false)).(error := Some(e)), NoOutcome)
  }

  /** The message as it concerns this state: guards that fail make it no message at all. */
  predicate Applies(s: Setup, m: Message) {
    match m
    case Start | ChooseDirectories | Restart => !s.pending
    case Cancel => true
    case LoginStarted(g, _) => g == s.generation
    case Authorized(g, _) => g == s.generation
    case Select(_) => !s.pending
    case LoadMountRoots | RestartMountRoots => !s.pending && !s.rootsPending
    case UseDirectories => s.target.Some? && s.session.Some? && !s.pending && SelectionReady(s)
    case MountRootsLoaded(g, r, _) => g == s.generation && r == s.rootsGeneration && s.rootsPending
    case ToggleMountRoot(_, _) => !s.pending
    case Enroll | Reauthorize => !s.pending && s.target.None? && SelectionReady(s)
    case Finished(g, _) => g == s.generation && s.target.None?
  }

  function Step(s: Setup, m: Message, draft: Draft): (Setup, Task, Outcome) {
    if !Applies(s, m) then (s, NoTask, NoOutcome)
    else
      match m
      case Start => var (b, t) := Begin(s, None, draft); (b, t, NoOutcome)
      case ChooseDirectories =>
        if draft.target.None? then (s, NoTask, NoOutcome)
        else var (b, t) := Begin(s, draft.target, draft); (b, t, NoOutcome)
      case Restart => var (b, t) := Begin(s, s.target, draft); (b, t, NoOutcome)
      case Cancel => (Reset(s), NoTask, NoOutcome)
      case LoginStarted(g, login) =>
        if login.Ok? then (s.(login := true), FinishLogin(g), NoOutcome)
        else (s.(pending := false, error := Some(login.error)), NoTask, NoOutcome)
      case Authorized(_, session) =>
        if session.Ok? then var (a, t) := LoadRoots(SignedIn(s, session.value)); (a, t, NoOutcome)
        else (s.(pending := false, login := false, error := Some(session.error)), NoTask, NoOutcome)
      case Select(site) =>
        if site in AvailableConnections(s)
        then var (a, t) := LoadRoots(ResetRoots(s).(selected := Some(site), error := None)); (a, t, NoOutcome)
        else (s, NoTask, NoOutcome)
      case LoadMountRoots => var (a, t) := LoadRoots(s); (a, t, NoOutcome)
      case RestartMountRoots => var (a, t) := LoadRoots(ResetRoots(s)); (a, t, NoOutcome)
      case UseDirectories =>
        if s.selected.Some? then (Reset(s), NoTask, Directories(s.target.value, SelectedOf(s.roots, s.selectedRoots)))
        else (s, NoTask, NoOutcome)
      case MountRootsLoaded(_, _, page) => (Loaded(s, page), NoTask, NoOutcome)
      case ToggleMountRoot(id, checked) => (Toggle(s, id, checked), NoTask, NoOutcome)
      case Enroll => var (a, t) := BeginEnrollment(s, false); (a, t, NoOutcome)
      case Reauthorize => var (a, t) := BeginEnrollment(s, true); (a, t, NoOutcome)
      case Finished(_, configured) => var (a, o) := Finish(s, configured); (a, NoTask, o)
  }

  // ----- what every message keeps -----

  /** An id stands for one path. */
  predicate IdsFixPaths(roots: seq<MountRoot>) {
    forall a <- roots, b <- roots :: a.id == b.id ==> a.path == b.path
  }

  function Ids(roots: seq<MountRoot>): set<string> {
    set r | r in roots :: r.id
  }

  ghost predicate Inv(s: Setup) {
    s.selectedRoots <= Ids(s.roots) && IdsFixPaths(s.roots) && |Additional(s)| <= s.mountSlots
  }

  /** A page of directories arrives as the client hands it over, validated. */
  ghost predicate Delivered(m: Message) {
    m.MountRootsLoaded? ==> exists fetched, site, cursor :: m.page == Received(fetched, site, cursor)
  }

  lemma DeliveredFixesPaths(m: Message)
    requires Delivered(m) && m.MountRootsLoaded? && m.page.Ok?
    ensures IdsFixPaths(m.page.value.items)
  {
    var fetched, site, cursor :| m.page == Received(fetched, site, cursor);
    assert DistinctIds(m.page.value.items);
  }

  lemma NoRootsKeepInv(s: Setup)
    requires s.roots == [] && s.selectedRoots == {}
    ensures Inv(s)
  {
    assert Additional(s) == {};
  }

  lemma SameRootsKeepInv(s: Setup, t: Setup)
    requires Inv(s) && t.roots == s.roots && t.selectedRoots == s.selectedRoots
    requires t.existing == s.existing && t.mountSlots == s.mountSlots
    ensures Inv(t)
  {
    assert Additional(t) == Additional(s);
  }

  lemma LoadedKeepsInv(s: Setup, page: Result<MountRootPage, Error>)
    requires Inv(s) && (page.Ok? ==> IdsFixPaths(page.value.items))
    ensures Inv(Loaded(s, page))
  {
    var t := Loaded(s, page);
    if page.Ok? && NewIds(s, page.value) {
      forall a, b | a in t.roots && b in t.roots && a.id == b.id ensures a.path == b.path {
        assert a in s.roots || a in page.value.items;
        assert b in s.roots || b in page.value.items;
      }
      assert Additional(t) == Additional(s) by {
        forall r | r in page.value.items ensures r.id !in s.selectedRoots {
          assert r.id in s.selectedRoots ==> exists o :: o in s.roots && o.id == r.id;
        }
      }
      assert Ids(t.roots) >= Ids(s.roots);
    } else if t.roots == [] {
      NoRootsKeepInv(t);
    } else {
      SameRootsKeepInv(s, t);
    }
  }

  lemma ToggleKeepsInv(s: Setup, id: string, checked: bool)
    requires Inv(s)
    ensures Inv(Toggle(s, id, checked))
  {
    var t := Toggle(s, id, checked);
    var found := FindRoot(s.roots, id);
    if !checked {
      assert Additional(t) <= Additional(s);
      SubsetSize(Additional(t), Additional(s));
    } else if found.Some? {
      var path := found.value.path;
      assert Additional(t) <= Additional(s) + {path};
      if path in s.existing {
        assert Additional(t) <= Additional(s);
        SubsetSize(Additional(t), Additional(s));
      } else {
        SubsetSize(Additional(t), Additional(s) + {path});
      }
    }
  }

  /** Roots, choices and slots stay, or there are no roots at all. */
  ghost predicate RootsStayOrGo(s: Setup, t: Setup) {
    || (t.roots == s.roots && t.selectedRoots == s.selectedRoots && t.existing == s.existing
        && t.mountSlots == s.mountSlots)
    || (t.roots == [] && t.selectedRoots == {})
  }

  lemma LoadRootsStays(s: Setup)
    ensures RootsStayOrGo(s, LoadRoots(s).0)
  {
  }

  predicate OfLogin(m: Message) {
    || m.Start? || m.ChooseDirectories? || m.Restart? || m.Cancel? || m.LoginStarted? || m.Enroll?
    || m.Reauthorize? || m.Finished?
  }

  lemma LoginStays(s: Setup, m: Message, draft: Draft)
    requires OfLogin(m)
    ensures RootsStayOrGo(s, Step(s, m, draft).0)
  {
  }

  lemma DirectoriesStay(s: Setup, m: Message, draft: Draft)
    requires !OfLogin(m) && !m.MountRootsLoaded? && !m.ToggleMountRoot?
    ensures RootsStayOrGo(s, Step(s, m, draft).0)
  {
    match m
    case Authorized(_, session) =>
      if session.Ok? { LoadRootsStays(SignedIn(s, session.value)); }
    case Select(site) => LoadRootsStays(ResetRoots(s).(selected := Some(site), error := None));
    case LoadMountRoots => LoadRootsStays(s);
    case RestartMountRoots => LoadRootsStays(ResetRoots(s));
    case UseDirectories =>
  }

  /** Selected roots are loaded roots, and never are there more new paths than slots. */
  lemma StepKeepsInv(s: Setup, m: Message, draft: Draft)
    requires Inv(s) && Delivered(m)
    ensures Inv(Step(s, m, draft).0)
  {
    if m.MountRootsLoaded? {
      if m.page.Ok? { DeliveredFixesPaths(m); }
      LoadedKeepsInv(s, m.page);
    } else if m.ToggleMountRoot? {
      ToggleKeepsInv(s, m.id, m.checked);
    } else {
      if OfLogin(m) { LoginStays(s, m, draft); } else { DirectoriesStay(s, m, draft); }
      StayOrGoKeepsInv(s, Step(s, m, draft).0);
    }
  }

  lemma StayOrGoKeepsInv(s: Setup, t: Setup)
    requires Inv(s) && RootsStayOrGo(s, t)
    ensures Inv(t)
  {
    if t.roots == [] && t.selectedRoots == {} { NoRootsKeepInv(t); } else { SameRootsKeepInv(s, t); }
  }

  lemma {:induction false} SelectedPaths(roots: seq<MountRoot>, ids: set<string>)
    ensures forall r :: r in SelectedOf(roots, ids) <==> r in roots && r.id in ids
  {
    if roots != [] { SelectedPaths(roots[1..], ids); }
  }

  /** The directories handed over add no more new paths than there were slots. */
  lemma OutcomeWithinSlots(s: Setup, m: Message, draft: Draft)
    requires Inv(s) && !Step(s, m, draft).2.NoOutcome?
    ensures forall r <- Step(s, m, draft).2.roots :: r in s.roots && r.id in s.selectedRoots
    ensures |set r | r in Step(s, m, draft).2.roots && r.path !in s.existing :: r.path| <= s.mountSlots
  {
    SelectedPaths(s.roots, s.selectedRoots);
    assert (set r | r in Step(s, m, draft).2.roots && r.path !in s.existing :: r.path) == Additional(s);
  }

  // ----- runs, and which replies are current -----

  datatype Turn = Turn(message: Message, draft: Draft)

  ghost predicate Run(states: seq<Setup>, turns: seq<Turn>) {
    && |states| == |turns| + 1 && 2 * |turns| < WRAP - 4 && states[0] == Default(0)
    && forall i :: 0 <= i < |turns| ==> states[i + 1] == Step(states[i], turns[i].message, turns[i].draft).0
  }

  ghost function TaskAt(states: seq<Setup>, turns: seq<Turn>, i: nat): Task
    requires i < |turns| && i < |states|
  {
    Step(states[i], turns[i].message, turns[i].draft).1
  }

  lemma {:induction false} RunKeepsInv(states: seq<Setup>, turns: seq<Turn>, i: nat)
    requires Run(states, turns) && i < |states| && forall t <- turns :: Delivered(t.message)
    ensures Inv(states[i])
  {
    if i == 0 {
      NoRootsKeepInv(states[0]);
    } else {
      RunKeepsInv(states, turns, i - 1);
      StepKeepsInv(states[i - 1], turns[i - 1].message, turns[i - 1].draft);
    }
  }

  /** The generation first, then that of the roots. */
  predicate Before(s: Setup, t: Setup) {
    s.generation < t.generation || (s.generation == t.generation && s.rootsGeneration < t.rootsGeneration)
  }

  predicate SamePair(s: Setup, t: Setup) {
    s.generation == t.generation && s.rootsGeneration == t.rootsGeneration
  }

  /** From `s` to `t` the pair of generations does not go back; a request gets a new pair; and
      only a request makes directories pending. */
  ghost predicate Advances(s: Setup, t: Setup, task: Task) {
    && t.generation <= s.generation + 1 && t.rootsGeneration <= s.rootsGeneration + 2
    && (SamePair(s, t) || Before(s, t))
    && (SamePair(s, t) && t.rootsPending ==> s.rootsPending)
    && (task.FetchRoots? ==>
        Before(s, t) && t.rootsPending && task.generation == t.generation && task.request == t.rootsGeneration)
    && (task.RunEnrollment? ==> s.generation < t.generation == task.generation && t.target.None?)
    && (s.generation == t.generation ==> t.target == s.target)
  }

  /** `t` is `s` with its roots as they are or reset, and other fields. */
  ghost predicate Reloading(s: Setup, t: Setup) {
    && t.generation == s.generation && t.target == s.target
    && ((t.rootsGeneration == s.rootsGeneration && t.rootsPending == s.rootsPending)
        || (t.rootsGeneration == s.rootsGeneration + 1 && !t.rootsPending))
  }

  lemma LoadRootsAdvances(s: Setup, t: Setup)
    requires Reloading(s, t) && s.rootsGeneration < WRAP - 2
    ensures Advances(s, LoadRoots(t).0, LoadRoots(t).1)
  {
  }

  lemma LoginAdvances(s: Setup, m: Message, draft: Draft)
    requires OfLogin(m) && s.generation < WRAP - 2 && s.rootsGeneration < WRAP - 2
    ensures Advances(s, Step(s, m, draft).0, Step(s, m, draft).1)
  {
    assert Next(s.generation) == s.generation + 1 && Next(s.rootsGeneration) == s.rootsGeneration + 1;
  }

  predicate OfLoading(m: Message) {
    m.Authorized? || m.Select? || m.LoadMountRoots? || m.RestartMountRoots?
  }

  lemma ChoosingAdvances(s: Setup, m: Message, draft: Draft)
    requires !OfLogin(m) && !OfLoading(m) && s.generation < WRAP - 2 && s.rootsGeneration < WRAP - 2
    ensures Advances(s, Step(s, m, draft).0, Step(s, m, draft).1)
  {
    assert Next(s.generation) == s.generation + 1 && Next(s.rootsGeneration) == s.rootsGeneration + 1;
  }

  lemma LoadingAdvances(s: Setup, m: Message, draft: Draft)
    requires OfLoading(m) && s.generation < WRAP - 2 && s.rootsGeneration < WRAP - 2
    ensures Advances(s, Step(s, m, draft).0, Step(s, m, draft).1)
  {
    assert Next(s.generation) == s.generation + 1 && Next(s.rootsGeneration) == s.rootsGeneration + 1;
    match m
    case Authorized(_, session) =>
      if session.Ok? { LoadRootsAdvances(s, SignedIn(s, session.value)); }
    case Select(site) => LoadRootsAdvances(s, ResetRoots(s).(selected := Some(site), error := None));
    case LoadMountRoots => LoadRootsAdvances(s, s);
    case RestartMountRoots => LoadRootsAdvances(s, ResetRoots(s));
  }

  /** Without wrapping, every message advances. */
  lemma StepAdvances(s: Setup, m: Message, draft: Draft)
    requires s.generation < WRAP - 2 && s.rootsGeneration < WRAP - 2
    ensures Advances(s, Step(s, m, draft).0, Step(s, m, draft).1)
  {
    if OfLogin(m) {
      LoginAdvances(s, m, draft);
    } else if OfLoading(m) {
      LoadingAdvances(s, m, draft);
    } else {
      ChoosingAdvances(s, m, draft);
    }
  }

  lemma {:induction false} RunBounded(states: seq<Setup>, turns: seq<Turn>, i: nat)
    requires Run(states, turns) && i < |states|
    ensures states[i].generation <= i && states[i].rootsGeneration <= 2 * i
  {
    if i > 0 {
      RunBounded(states, turns, i - 1);
      StepAdvances(states[i - 1], turns[i - 1].message, turns[i - 1].draft);
    }
  }

  ghost predicate Advancing(states: seq<Setup>) {
    forall i :: 0 < i < |states| ==> Advances(states[i - 1], states[i], NoTask)
  }

  lemma RunAdvances(states: seq<Setup>, turns: seq<Turn>)
    requires Run(states, turns)
    ensures Advancing(states)
  {
    forall i | 0 < i < |states| ensures Advances(states[i - 1], states[i], NoTask) {
      TurnAdvances(states, turns, i - 1);
    }
  }

  lemma TurnAdvances(states: seq<Setup>, turns: seq<Turn>, i: nat)
    requires Run(states, turns) && i < |turns|
    ensures Advances(states[i], states[i + 1], TaskAt(states, turns, i)) && Advances(states[i], states[i + 1], NoTask)
  {
    RunBounded(states, turns, i);
    StepAdvances(states[i], turns[i].message, turns[i].draft);
  }

  lemma {:induction false} NeverBack(states: seq<Setup>, i: nat, j: nat)
    requires Advancing(states) && i <= j < |states|
    ensures SamePair(states[i], states[j]) || Before(states[i], states[j])
    ensures SamePair(states[i], states[j]) ==>
              forall k :: i <= k <= j ==>
                  SamePair(states[i], states[k]) && (states[j].rootsPending ==> states[k].rootsPending)
    ensures states[i].generation == states[j].generation ==>
              forall k :: i <= k <= j ==>
                  states[k].generation == states[i].generation && states[k].target == states[i].target
  {
    if i < j {
      NeverBack(states, i, j - 1);
      assert Advances(states[j - 1], states[j], NoTask);
    }
  }

  /** The request for directories that is outstanding, if there is one. */
  function Outstanding(s: Setup): Option<(nat, nat)> {
    if s.rootsPending then Some((s.generation, s.rootsGeneration)) else None
  }

  /** A request sent at turn `i` has a pair of generations that no request before it had. */
  lemma RequestsDiffer(states: seq<Setup>, turns: seq<Turn>, i: nat, j: nat)
    requires Run(states, turns) && i < j < |turns|
    requires TaskAt(states, turns, i).FetchRoots? && TaskAt(states, turns, j).FetchRoots?
    ensures (TaskAt(states, turns, i).generation, TaskAt(states, turns, i).request)
         != (TaskAt(states, turns, j).generation, TaskAt(states, turns, j).request)
  {
    TurnAdvances(states, turns, i);
    TurnAdvances(states, turns, j);
    RunAdvances(states, turns);
    NeverBack(states, i + 1, j);
  }

  /** The reply to a request changes anything only if that request has been outstanding ever
      since it was sent: nothing reset, replaced or answered it on the way. */
  lemma StaleRepliesChangeNothing(states: seq<Setup>, turns: seq<Turn>, i: nat, j: nat)
    requires Run(states, turns) && i < j < |turns| && TaskAt(states, turns, i).FetchRoots?
    requires turns[j].message.MountRootsLoaded?
    requires turns[j].message.generation == TaskAt(states, turns, i).generation
    requires turns[j].message.request == TaskAt(states, turns, i).request
    ensures var request := Some((TaskAt(states, turns, i).generation, TaskAt(states, turns, i).request));
      && (Applies(states[j], turns[j].message) <==> forall k :: i < k <= j ==> Outstanding(states[k]) == request)
      && (!Applies(states[j], turns[j].message) ==> states[j + 1] == states[j])
  {
    TurnAdvances(states, turns, i);
    RunAdvances(states, turns);
    NeverBack(states, i + 1, j);
  }

  predicate EnrollsAt(states: seq<Setup>, turns: seq<Turn>, i: nat, generation: nat) {
    && i < |turns| && i < |states|
    && var task := Step(states[i], turns[i].message, turns[i].draft).1;
    task.RunEnrollment? && task.generation == generation
  }

  /** Only an enrollment reports that it has finished, with the generation it was started with. */
  ghost predicate FinishesOwn(states: seq<Setup>, turns: seq<Turn>) {
    forall j :: 0 <= j < |turns| && turns[j].message.Finished? ==>
                  exists i :: 0 <= i < j && EnrollsAt(states, turns, i, turns[j].message.generation)
  }

  /** A configured connection comes from an enrollment of this run, and at no time since that began
      was the setup for directories only, reset or enrolled anew. */
  lemma ConfiguredOnlyAfterEnrollment(states: seq<Setup>, turns: seq<Turn>, j: nat) returns (i: nat)
    requires Run(states, turns) && FinishesOwn(states, turns) && j < |turns|
    requires Step(states[j], turns[j].message, turns[j].draft).2.Configured?
    ensures i < j && turns[j].message.Finished? && EnrollsAt(states, turns, i, turns[j].message.generation)
    ensures forall k :: i < k <= j ==> states[k].target.None? && states[k].generation == turns[j].message.generation
  {
    i :| 0 <= i < j && EnrollsAt(states, turns, i, turns[j].message.generation);
    TurnAdvances(states, turns, i);
    RunAdvances(states, turns);
    NeverBack(states, i + 1, j);
  }

  // ----- the reducer in place -----

  class State {
    var generation: nat
    var login: bool
    var session: Option<Session>
    var selected: Option<Connection>
    var pending: bool
    var ready: bool
    var error: Option<Error>
    var roots: seq<MountRoot>
    var selectedRoots: set<string>
    var rootsCursor: Option<string>
    var rootsLoaded: bool
    var rootsPending: bool
    var rootsError: Option<Error>
    var rootsGeneration: nat
    var existing: set<string>
    var mountSlots: nat
    var target: Option<Target>

    function Value(): Setup
      reads this
    {
      Setup(generation, login, session, selected, pending, ready, error, roots, selectedRoots, rootsCursor, rootsLoaded,
            rootsPending, rootsError, rootsGeneration, existing, mountSlots, target)
    }

    constructor ()
      ensures Value() == Default(0)
    {
      generation, login, session, selected, pending, ready, error := 0, false, None, None, false, false, None;
      roots, selectedRoots, rootsCursor, rootsLoaded, rootsPending, rootsError := [], {}, None, false, false, None;
      rootsGeneration, existing, mountSlots, target := 0, {}, 0, None;
    }

    method Clear()
      modifies this
      ensures Value() == Reset(old(Value()))
    {
      ClearRoots();
      generation, login, session, selected := Next(generation), false, None, None;
      pending, ready, error := false, false, None;
      rootsGeneration, existing, mountSlots, target := 0, {}, 0, None;
    }

    method ClearRoots()
      modifies this
      ensures Value() == ResetRoots(old(Value()))
    {
      rootsGeneration := Next(rootsGeneration);
      ForgetRoots();
      rootsPending, rootsError := false, None;
    }

    method ForgetRoots()
      modifies this
      ensures Value()
           == old(Value()).(roots := [], selectedRoots := {}, rootsCursor := None, rootsLoaded := false)
    {
      roots, selectedRoots, rootsCursor, rootsLoaded := [], {}, None, false;
    }

    method Load() returns (task: Task)
      modifies this
      ensures (Value(), task) == LoadRoots(old(Value()))
    {
      if session.None? || selected.None? { return NoTask; }
      if !session.value.hasMountDirectoryDiscovery || (rootsLoaded && rootsCursor.None?) { return NoTask; }
      rootsGeneration := Next(rootsGeneration);
      rootsPending, rootsError := true, None;
      task := FetchRoots(generation, rootsGeneration, rootsCursor);
    }

    method StartSetup(chosen: Option<Target>, draft: Draft) returns (task: Task)
      modifies this
      ensures (Value(), task) == Begin(old(Value()), chosen, draft)
    {
      Clear();
      target := chosen;
      existing := Paths(draft);
      mountSlots := Slots(draft);
      pending := true;
      task := StartLogin(generation, target.Some?);
    }

    method SignIn(signedIn: Session) returns (task: Task)
      modifies this
      ensures (Value(), task) == LoadRoots(SignedIn(old(Value()), signedIn))
    {
      Choose(signedIn);
      task := Load();
    }

    method Choose(signedIn: Session)
      modifies this
      ensures Value() == SignedIn(old(Value()), signedIn)
    {
      pending, login, session := false, false, Some(signedIn);
      var choices := AvailableConnections(Value());
      selected := if (target.None? || |choices| == 1) && choices != [] then Some(choices[0]) else None;
    }

    method ReceiveRoots(page: Result<MountRootPage, Error>)
      modifies this
      ensures Value() == Loaded(old(Value()), page)
    {
      rootsPending := false;
      match page {
        case Ok(p) => AddRoots(p);
        case Err(DirectoryChanged) =>
          ClearRoots();
          rootsError := Some(DirectoryChanged);
        case Err(e) => rootsError := Some(e);
      }
    }

    method AddRoots(p: MountRootPage)
      modifies this
      ensures Value() == if NewIds(old(Value()), p)
                         then old(Value()).(roots := old(roots) + p.items, rootsCursor := p.nextCursor,
                                            rootsLoaded := true)
                         else old(Value()).(rootsError := Some(Contract))
    {
      if NewIds(Value(), p) {
        roots := roots + p.items;
        rootsCursor, rootsLoaded := p.nextCursor, true;
      } else {
        rootsError := Some(Contract);
      }
    }

    method ToggleRoot(id: string, checked: bool)
      modifies this
      ensures Value() == Toggle(old(Value()), id, checked)
    {
      if !checked {
        selectedRoots := selectedRoots - {id};
        return;
      }
      var root := FindRoot(roots, id);
      if root.Some? && rootsError != Some(DirectoryChanged)
         && (root.value.path in existing || |Additional(Value())| < mountSlots)
      {
        selectedRoots := selectedRoots + {id};
      }
    }

    method StartEnrollment(replaceRetired: bool) returns (task: Task)
      modifies this
      ensures (Value(), task) == BeginEnrollment(old(Value()), replaceRetired)
    {
      if replaceRetired && error != Some(KeyRevoked) && error != Some(KeyExpired) { return NoTask; }
      if session.None? || selected.None? { return NoTask; }
      rootsPending, rootsGeneration := false, Next(rootsGeneration);
      pending, error := true, None;
      generation := Next(generation);
      task := RunEnrollment(generation, replaceRetired);
    }

    method EndEnrollment(configured: Result<string, Error>) returns (outcome: Outcome)
      modifies this
      ensures (Value(), outcome) == Finish(old(Value()), configured)
    {
      pending := false;
      match configured {
        case Ok(c) =>
          var chosen := SelectedOf(roots, selectedRoots);
          Clear();
          ready := true;
          outcome := Configured(c, chosen);
        case Err(e) =>
          if e == Expired { Clear(); }
          error := Some(e);
          outcome := NoOutcome;
      }
    }

    method Update(m: Message, draft: Draft) returns (task: Task, outcome: Outcome)
      modifies this
      ensures (Value(), task, outcome) == Step(old(Value()), m, draft)
    {
      if !Applies(Value(), m) { return NoTask, NoOutcome; }
      if OfLogin(m) {
        task, outcome := UpdateLogin(m, draft);
      } else {
        task, outcome := UpdateDirectories(m, draft);
      }
    }

    method UpdateLogin(m: Message, draft: Draft) returns (task: Task, outcome: Outcome)
      requires OfLogin(m) && Applies(Value(), m)
      modifies this
      ensures (Value(), task, outcome) == Step(old(Value()), m, draft)
    {
      task, outcome := NoTask, NoOutcome;
      match m {
        case Start => task := StartSetup(None, draft);
        case ChooseDirectories =>
          if draft.target.Some? { task := StartSetup(draft.target, draft); }
        case Restart => task := StartSetup(target, draft);
        case Cancel => Clear();
        case LoginStarted(g, started) =>
          if started.Ok? {
            login := true;
            task := FinishLogin(g);
          } else {
            pending, error := false, Some(started.error);
          }
        case Enroll => task := StartEnrollment(false);
        case Reauthorize => task := StartEnrollment(true);
        case Finished(_, configured) => outcome := EndEnrollment(configured);
      }
    }

    method UpdateDirectories(m: Message, draft: Draft) returns (task: Task, outcome: Outcome)
      requires !OfLogin(m) && Applies(Value(), m)
      modifies this
      ensures (Value(), task, outcome) == Step(old(Value()), m, draft)
    {
      task, outcome := NoTask, NoOutcome;
      match m {
        case Authorized(_, signedIn) =>
          if signedIn.Ok? {
            task := SignIn(signedIn.value);
          } else {
            pending, login, error := false, false, Some(signedIn.error);
          }
        case Select(site) =>
          if site in AvailableConnections(Value()) {
            ClearRoots();
            selected, error := Some(site), None;
            task := Load();
          }
        case LoadMountRoots => task := Load();
        case RestartMountRoots =>
          ClearRoots();
          task := Load();
        case UseDirectories =>
          if selected.Some? {
            outcome := Directories(target.value, SelectedOf(roots, selectedRoots));
            Clear();
          }
        case MountRootsLoaded(_, _, page) => ReceiveRoots(page);
        case ToggleMountRoot(id, checked) => ToggleRoot(id, checked);
      }
    }
  }
}
