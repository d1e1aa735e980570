/** What the setup asks for and hands over, told from the state and the message alone: which task
    starts, which outcome is reported, when an operation is pending, which error is shown, and
    what becomes of the connection that is edited. */
module SetupTasks {
  import opened Common
  import opened MountRoots
  import opened SetupReducer

  // ----- tasks -----

  predicate Idle(s: Setup) {
    !s.pending && !s.rootsPending
  }

  /** A login starts when none is pending, for a setup from the beginning or for directories of
      the connection that is edited. */
  predicate Begins(s: Setup, m: Message, draft: Draft) {
    !s.pending && (m.Start? || m.Restart? || (m.ChooseDirectories? && draft.target.Some?))
  }

  lemma LoginStartsExactly(s: Setup, m: Message, draft: Draft)
    ensures var (t, task, outcome) := Step(s, m, draft);
      && (task.StartLogin? <==> Begins(s, m, draft))
      && (task.StartLogin? ==>
            && task.generation == t.generation == Next(s.generation)
            && (task.directoriesOnly <==> t.target.Some?)
            && t.target == (if m.Start? then None else if m.Restart? then s.target else draft.target)
            && t.existing == Paths(draft) && t.mountSlots == Slots(draft) && t.roots == [] && t.session.None?)
  {
  }

  lemma LoginFinishesExactly(s: Setup, m: Message, draft: Draft)
    ensures var (t, task, outcome) := Step(s, m, draft);
      && (task.FinishLogin? <==> m.LoginStarted? && m.generation == s.generation && m.login.Ok?)
      && (task.FinishLogin? ==> task.generation == t.generation == s.generation && t.login)
  {
  }

  /** An enrollment starts exactly for a signed-in site whose choice of directories is settled, in
      a setup that is not for directories only, and replaces a key only if that was refused. */
  lemma EnrollmentStartsExactly(s: Setup, m: Message, draft: Draft)
    ensures var (t, task, outcome) := Step(s, m, draft);
      && (task.RunEnrollment? <==>
            && (m.Enroll? || m.Reauthorize?) && !s.pending && s.target.None? && s.session.Some? && s.selected.Some?
            && (s.selectedRoots == {} || (!s.rootsPending && s.rootsError.None?))
            && (m.Reauthorize? ==> s.error == Some(KeyRevoked) || s.error == Some(KeyExpired)))
      && (task.RunEnrollment? ==>
            && (task.replaceRetired <==> m.Reauthorize?)
            && task.generation == t.generation == Next(s.generation) && !t.rootsPending
            && t.selectedRoots == s.selectedRoots && t.roots == s.roots)
  {
  }

  /** The site that a session offers first, if the setup may choose it by itself. */
  function FirstChoice(s: Setup, session: Session): Option<Connection> {
    var choices := Filter(session.connections, s.target);
    if choices == [] || (s.target.Some? && |choices| > 1) then None else Some(choices[0])
  }

  /** The session whose directories a message asks for, and the cursor to go on from. */
  function Wanted(s: Setup, m: Message): Option<(Session, Option<string>)> {
    var complete := s.rootsLoaded && s.rootsCursor.None?;
    match m
    case Authorized(g, Ok(session)) =>
      if g == s.generation && FirstChoice(s, session).Some? && !complete then Some((session, s.rootsCursor)) else None
    case Select(site) =>
      if !s.pending && s.session.Some? && site in s.session.value.connections
         && (s.target.Some? ==> s.target.value.Matches(site))
      then Some((s.session.value, None)) else None
    case LoadMountRoots =>
      if Idle(s) && s.session.Some? && s.selected.Some? && !complete then Some((s.session.value, s.rootsCursor))
      else None
    case RestartMountRoots =>
      if Idle(s) && s.session.Some? && s.selected.Some? then Some((s.session.value, None)) else None
    case _ => None
  }

  lemma {:induction false} FilterMeaning(connections: seq<Connection>, target: Option<Target>)
    ensures forall c :: c in Filter(connections, target)
                        <==> c in connections && (target.Some? ==> target.value.Matches(c))
  {
    if connections != [] { FilterMeaning(connections[1..], target); }
  }

  /** Directories are fetched exactly when they are wanted of a session that can list them, from
      the cursor on that the last page left, or from the beginning. */
  lemma FetchesExactly(s: Setup, m: Message, draft: Draft)
    ensures var (t, task, outcome) := Step(s, m, draft);
      && (task.FetchRoots? <==> Wanted(s, m).Some? && Wanted(s, m).value.0.hasMountDirectoryDiscovery)
      && (task.FetchRoots? ==>
            && task.cursor == Wanted(s, m).value.1 && task.generation == t.generation == s.generation
            && task.request == t.rootsGeneration && t.rootsPending && t.rootsError.None?
            && t.session == Some(Wanted(s, m).value.0) && t.selected.Some?)
  {
    if m.Select? && s.session.Some? {
      FilterMeaning(s.session.value.connections, s.target);
    }
  }

  // ----- outcomes -----

  /** A connection is handed over exactly when the current enrollment succeeded, and directories
      exactly when a settled choice of a directory-only setup is used; both with the chosen roots
      in their order. */
  lemma OutcomeExactly(s: Setup, m: Message, draft: Draft)
    ensures var (t, task, outcome) := Step(s, m, draft);
      && (outcome.Configured? <==>
            m.Finished? && m.generation == s.generation && s.target.None? && m.configured.Ok?)
      && (outcome.Configured? ==> outcome.configured == m.configured.value && t.ready)
      && (outcome.Directories? <==>
            && m.UseDirectories? && s.target.Some? && s.session.Some? && s.selected.Some? && !s.pending
            && (s.selectedRoots == {} || (!s.rootsPending && s.rootsError.None?)))
      && (outcome.Directories? ==> outcome.target == s.target.value)
      && (!outcome.NoOutcome? ==> outcome.roots == SelectedOf(s.roots, s.selectedRoots) && task.NoTask?)
  {
  }

  // ----- what is pending, and what went wrong -----

  /** A reply of the current generation that ends what is pending. */
  predicate Ends(s: Setup, m: Message) {
    || (m.LoginStarted? && m.generation == s.generation && m.login.Err?)
    || (m.Authorized? && m.generation == s.generation)
    || (m.Finished? && m.generation == s.generation && s.target.None?)
  }

  /** Pending means that a login or an enrollment was started and neither ended nor cancelled. */
  lemma PendingExactly(s: Setup, m: Message, draft: Draft)
    ensures PendingLaw(s, m, Step(s, m, draft).0, Step(s, m, draft).1)
  {
    if OfLogin(m) { PendingOfLogin(s, m, draft); } else { PendingOfOthers(s, m, draft); }
  }

  predicate PendingLaw(s: Setup, m: Message, t: Setup, task: Task) {
    t.pending <==> task.StartLogin? || task.RunEnrollment? || (s.pending && !Ends(s, m) && !m.Cancel?)
  }

  lemma PendingOfLogin(s: Setup, m: Message, draft: Draft)
    requires OfLogin(m)
    ensures PendingLaw(s, m, Step(s, m, draft).0, Step(s, m, draft).1)
  {
  }

  lemma PendingOfOthers(s: Setup, m: Message, draft: Draft)
    requires !OfLogin(m)
    ensures PendingLaw(s, m, Step(s, m, draft).0, Step(s, m, draft).1)
  {
  }

  /** The error that a reply of the current generation brings. */
  function Failure(s: Setup, m: Message): Option<Error> {
    match m
    case LoginStarted(g, Err(e)) => if g == s.generation then Some(e) else None
    case Authorized(g, Err(e)) => if g == s.generation then Some(e) else None
    case Finished(g, Err(e)) => if g == s.generation && s.target.None? then Some(e) else None
    case _ => None
  }

  /** A failure is shown until something new is started, chosen, handed over or cancelled. */
  lemma ErrorExactly(s: Setup, m: Message, draft: Draft)
    ensures ErrorLaw(s, m, Step(s, m, draft).0, Step(s, m, draft).1, Step(s, m, draft).2)
  {
    if OfLogin(m) { ErrorOfLogin(s, m, draft); } else { ErrorOfOthers(s, m, draft); }
  }

  predicate ErrorLaw(s: Setup, m: Message, t: Setup, task: Task, outcome: Outcome) {
    t.error == if Failure(s, m).Some? then Failure(s, m)
               else if m.Cancel? || task.StartLogin? || task.RunEnrollment? || !outcome.NoOutcome?
                       || (m.Select? && !s.pending && m.site in AvailableConnections(s)) then None
               else s.error
  }

  lemma ErrorOfLogin(s: Setup, m: Message, draft: Draft)
    requires OfLogin(m)
    ensures ErrorLaw(s, m, Step(s, m, draft).0, Step(s, m, draft).1, Step(s, m, draft).2)
  {
  }

  lemma ErrorOfOthers(s: Setup, m: Message, draft: Draft)
    requires !OfLogin(m)
    ensures ErrorLaw(s, m, Step(s, m, draft).0, Step(s, m, draft).1, Step(s, m, draft).2)
  {
  }

  /** Everything is forgotten: cancelled, begun anew, handed over or expired. */
  predicate Forgets(s: Setup, m: Message, draft: Draft) {
    || m.Cancel? || Begins(s, m, draft) || !Step(s, m, draft).2.NoOutcome?
    || (m.Finished? && Failure(s, m) == Some(Expired))
  }

  /** The session and the choices last until then; only then the generation moves on, and with an
      enrollment. */
  lemma SessionExactly(s: Setup, m: Message, draft: Draft)
    ensures SessionLaw(s, m, Step(s, m, draft).0, Step(s, m, draft).1, Forgets(s, m, draft), Begins(s, m, draft))
  {
    if OfLogin(m) {
      SessionOfLogin(s, m, draft);
    } else if OfLoading(m) {
      SessionOfLoading(s, m, draft);
    } else if m.UseDirectories? {
      SessionOfUse(s, m, draft);
    } else {
      SessionOfOthers(s, m, draft);
    }
  }

  predicate SessionLaw(s: Setup, m: Message, t: Setup, task: Task, forgets: bool, begins: bool) {
    && t.session == (if forgets then None
                     else if m.Authorized? && m.generation == s.generation && m.session.Ok? then Some(m.session.value)
                     else s.session)
    && t.generation == (if forgets || task.RunEnrollment? then Next(s.generation) else s.generation)
    && (!begins ==> t.target == if forgets then None else s.target)
    && (!begins ==> t.existing == if forgets then {} else s.existing)
    && (!begins ==> t.mountSlots == if forgets then 0 else s.mountSlots)
  }

  lemma SessionOfLogin(s: Setup, m: Message, draft: Draft)
    requires OfLogin(m)
    ensures SessionLaw(s, m, Step(s, m, draft).0, Step(s, m, draft).1, Forgets(s, m, draft), Begins(s, m, draft))
  {
  }

  lemma SessionOfUse(s: Setup, m: Message, draft: Draft)
    requires m.UseDirectories?
    ensures SessionLaw(s, m, Step(s, m, draft).0, Step(s, m, draft).1, Forgets(s, m, draft), Begins(s, m, draft))
  {
  }

  lemma SessionOfLoading(s: Setup, m: Message, draft: Draft)
    requires OfLoading(m)
    ensures SessionLaw(s, m, Step(s, m, draft).0, Step(s, m, draft).1, Forgets(s, m, draft), Begins(s, m, draft))
  {
  }

  lemma SessionOfOthers(s: Setup, m: Message, draft: Draft)
    requires m.MountRootsLoaded? || m.ToggleMountRoot?
    ensures SessionLaw(s, m, Step(s, m, draft).0, Step(s, m, draft).1, Forgets(s, m, draft), Begins(s, m, draft))
  {
  }

  /** The site is chosen by signing in or by hand; the login is shown until it is answered; ready
      means that a connection was configured and nothing begun since. */
  predicate SiteLaw(s: Setup, m: Message, t: Setup, task: Task, outcome: Outcome, forgets: bool) {
    && t.selected == (if forgets then None
                      else if m.Authorized? && m.generation == s.generation && m.session.Ok?
                      then FirstChoice(s, m.session.value)
                      else if m.Select? && !s.pending && m.site in AvailableConnections(s) then Some(m.site)
                      else s.selected)
    && (t.login <==>
          task.FinishLogin? || (s.login && !forgets && !(m.Authorized? && m.generation == s.generation)))
    && (t.ready <==> outcome.Configured? || (s.ready && !forgets))
  }

  lemma SiteExactly(s: Setup, m: Message, draft: Draft)
    ensures SiteLaw(s, m, Step(s, m, draft).0, Step(s, m, draft).1, Step(s, m, draft).2, Forgets(s, m, draft))
  {
    if OfLogin(m) { SiteOfLogin(s, m, draft); } else if OfLoading(m) { SiteOfLoading(s, m, draft); }
    else if m.UseDirectories? { SiteOfUse(s, m, draft); } else { SiteOfOthers(s, m, draft); }
  }

  lemma SiteOfLogin(s: Setup, m: Message, draft: Draft)
    requires OfLogin(m)
    ensures SiteLaw(s, m, Step(s, m, draft).0, Step(s, m, draft).1, Step(s, m, draft).2, Forgets(s, m, draft))
  {
  }

  lemma SiteOfLoading(s: Setup, m: Message, draft: Draft)
    requires OfLoading(m)
    ensures SiteLaw(s, m, Step(s, m, draft).0, Step(s, m, draft).1, Step(s, m, draft).2, Forgets(s, m, draft))
  {
  }

  lemma SiteOfUse(s: Setup, m: Message, draft: Draft)
    requires m.UseDirectories?
    ensures SiteLaw(s, m, Step(s, m, draft).0, Step(s, m, draft).1, Step(s, m, draft).2, Forgets(s, m, draft))
  {
  }

  lemma SiteOfOthers(s: Setup, m: Message, draft: Draft)
    requires m.MountRootsLoaded? || m.ToggleMountRoot?
    ensures SiteLaw(s, m, Step(s, m, draft).0, Step(s, m, draft).1, Step(s, m, draft).2, Forgets(s, m, draft))
  {
  }

  // ----- the directories -----

  /** The reply to the outstanding request. */
  predicate Answers(s: Setup, m: Message) {
    m.MountRootsLoaded? && m.generation == s.generation && m.request == s.rootsGeneration && s.rootsPending
  }

  /** The loaded directories are dropped: another site, a restart, or a changed listing. */
  predicate Drops(s: Setup, m: Message) {
    || (m.Select? && !s.pending && m.site in AvailableConnections(s))
    || (m.RestartMountRoots? && Idle(s))
    || (Answers(s, m) && m.page == Err(DirectoryChanged))
  }

  /** The page brings directories that are all new. */
  predicate Extends(s: Setup, m: Message) {
    Answers(s, m) && m.page.Ok? && forall item <- m.page.value.items, r <- s.roots :: r.id != item.id
  }

  /** Directories are only ever appended, page by page, until they are all dropped. */
  predicate RootsLaw(s: Setup, m: Message, t: Setup, forgets: bool) {
    && t.roots == (if forgets || Drops(s, m) then []
                   else if Extends(s, m) then s.roots + m.page.value.items else s.roots)
    && t.rootsLoaded == (if forgets || Drops(s, m) then false else s.rootsLoaded || Extends(s, m))
    && t.rootsCursor == (if forgets || Drops(s, m) then None
                         else if Extends(s, m) then m.page.value.nextCursor else s.rootsCursor)
  }

  lemma RootsExactly(s: Setup, m: Message, draft: Draft)
    ensures RootsLaw(s, m, Step(s, m, draft).0, Forgets(s, m, draft))
  {
    if OfLogin(m) {
      RootsOfLogin(s, m, draft);
    } else if OfLoading(m) {
      RootsOfLoading(s, m, draft);
    } else if m.UseDirectories? {
      RootsOfUse(s, m, draft);
    } else {
      RootsOfOthers(s, m, draft);
    }
  }

  lemma RootsOfLogin(s: Setup, m: Message, draft: Draft)
    requires OfLogin(m)
    ensures RootsLaw(s, m, Step(s, m, draft).0, Forgets(s, m, draft))
  {
  }

  lemma RootsOfLoading(s: Setup, m: Message, draft: Draft)
    requires OfLoading(m)
    ensures RootsLaw(s, m, Step(s, m, draft).0, Forgets(s, m, draft))
  {
  }

  lemma RootsOfUse(s: Setup, m: Message, draft: Draft)
    requires m.UseDirectories?
    ensures RootsLaw(s, m, Step(s, m, draft).0, Forgets(s, m, draft))
  {
  }

  lemma RootsOfOthers(s: Setup, m: Message, draft: Draft)
    requires m.MountRootsLoaded? || m.ToggleMountRoot?
    ensures RootsLaw(s, m, Step(s, m, draft).0, Forgets(s, m, draft))
  {
  }

  /** A loaded directory may be chosen if it is already a mount or a slot is left for it. */
  predicate Selectable(s: Setup, id: string) {
    && s.rootsError != Some(DirectoryChanged)
    && exists r <- s.roots :: r.id == id && (r.path in s.existing || |Additional(s)| < s.mountSlots)
  }

  /** The choice changes by one directory at a time, or is dropped with the directories. */
  predicate ChoiceLaw(s: Setup, m: Message, t: Setup, forgets: bool) {
    t.selectedRoots == if forgets || Drops(s, m) then {}
                       else if !m.ToggleMountRoot? || s.pending then s.selectedRoots
                       else if !m.checked then s.selectedRoots - {m.id}
                       else if Selectable(s, m.id) then s.selectedRoots + {m.id} else s.selectedRoots
  }

  lemma ChoiceExactly(s: Setup, m: Message, draft: Draft)
    requires Inv(s)
    ensures ChoiceLaw(s, m, Step(s, m, draft).0, Forgets(s, m, draft))
  {
    if m.ToggleMountRoot? {
      ToggleExactly(s, m, draft);
    } else if OfLogin(m) {
      ChoiceOfLogin(s, m, draft);
    } else {
      ChoiceOfOthers(s, m, draft);
    }
  }

  lemma ToggleExactly(s: Setup, m: Message, draft: Draft)
    requires Inv(s) && m.ToggleMountRoot?
    ensures ChoiceLaw(s, m, Step(s, m, draft).0, Forgets(s, m, draft))
  {
    var found := FindRoot(s.roots, m.id);
    assert Step(s, m, draft).0 == if s.pending then s else Toggle(s, m.id, m.checked);
    if found.Some? {
      assert forall r <- s.roots :: r.id == m.id ==> r.path == found.value.path;
    }
  }

  lemma ChoiceOfLogin(s: Setup, m: Message, draft: Draft)
    requires OfLogin(m)
    ensures ChoiceLaw(s, m, Step(s, m, draft).0, Forgets(s, m, draft))
  {
  }

  lemma ChoiceOfOthers(s: Setup, m: Message, draft: Draft)
    requires !OfLogin(m) && !m.ToggleMountRoot?
    ensures ChoiceLaw(s, m, Step(s, m, draft).0, Forgets(s, m, draft))
  {
  }

  /** A request is outstanding from when it is sent until it is answered, its directories are
      dropped, everything is forgotten or an enrollment begins; its failure is kept until the next. */
  predicate RequestLaw(s: Setup, m: Message, t: Setup, task: Task, forgets: bool) {
    && (t.rootsPending <==>
          task.FetchRoots?
          || (s.rootsPending && !Answers(s, m) && !Drops(s, m) && !forgets && !task.RunEnrollment?))
    && t.rootsError == if forgets || task.FetchRoots? then None
                       else if Answers(s, m) then
                         (if m.page.Err? then Some(m.page.error)
                          else if Extends(s, m) then s.rootsError else Some(Contract))
                       else if Drops(s, m) then None else s.rootsError
  }

  lemma RequestExactly(s: Setup, m: Message, draft: Draft)
    ensures RequestLaw(s, m, Step(s, m, draft).0, Step(s, m, draft).1, Forgets(s, m, draft))
  {
    if OfLogin(m) {
      RequestOfLogin(s, m, draft);
    } else if OfLoading(m) {
      RequestOfLoading(s, m, draft);
    } else if m.UseDirectories? {
      RequestOfUse(s, m, draft);
    } else {
      RequestOfOthers(s, m, draft);
    }
  }

  lemma RequestOfLogin(s: Setup, m: Message, draft: Draft)
    requires OfLogin(m)
    ensures RequestLaw(s, m, Step(s, m, draft).0, Step(s, m, draft).1, Forgets(s, m, draft))
  {
  }

  lemma RequestOfLoading(s: Setup, m: Message, draft: Draft)
    requires OfLoading(m)
    ensures RequestLaw(s, m, Step(s, m, draft).0, Step(s, m, draft).1, Forgets(s, m, draft))
  {
  }

  lemma RequestOfUse(s: Setup, m: Message, draft: Draft)
    requires m.UseDirectories?
    ensures RequestLaw(s, m, Step(s, m, draft).0, Step(s, m, draft).1, Forgets(s, m, draft))
  {
  }

  lemma RequestOfOthers(s: Setup, m: Message, draft: Draft)
    requires m.MountRootsLoaded? || m.ToggleMountRoot?
    ensures RequestLaw(s, m, Step(s, m, draft).0, Step(s, m, draft).1, Forgets(s, m, draft))
  {
  }

  // ----- the site that is chosen -----

  /** A chosen site is one of the session's, and of the edited connection's in a setup for
      directories only. */
  ghost predicate Chosen(s: Setup) {
    s.selected.Some? ==>
      && s.session.Some? && s.selected.value in s.session.value.connections
      && (s.target.Some? ==> s.target.value.Matches(s.selected.value))
  }

  lemma StepKeepsChosen(s: Setup, m: Message, draft: Draft)
    requires Chosen(s)
    ensures Chosen(Step(s, m, draft).0)
  {
    match m
    case Authorized(g, session) =>
      if session.Ok? { AuthorizedChosen(s, session.value); }
    case Select(_) =>
      if s.session.Some? { FilterMeaning(s.session.value.connections, s.target); }
      SelectKeepsChosen(s, m, draft);
    case _ => if OfLogin(m) { LoginKeepsChosen(s, m, draft); } else { OthersKeepChosen(s, m, draft); }
  }

  lemma AuthorizedChosen(s: Setup, session: Session)
    ensures Chosen(SignedIn(s, session)) && Chosen(LoadRoots(SignedIn(s, session)).0)
  {
    FilterMeaning(session.connections, s.target);
  }

  lemma SelectKeepsChosen(s: Setup, m: Message, draft: Draft)
    requires Chosen(s) && m.Select?
    ensures Chosen(Step(s, m, draft).0)
  {
    if s.session.Some? { FilterMeaning(s.session.value.connections, s.target); }
  }

  /** What is chosen stays, for the same session and target, or nothing is. */
  predicate SameChoice(s: Setup, t: Setup) {
    t.selected.None? || (t.selected == s.selected && t.session == s.session && t.target == s.target)
  }

  lemma LoginKeepsChosen(s: Setup, m: Message, draft: Draft)
    requires OfLogin(m)
    ensures SameChoice(s, Step(s, m, draft).0)
  {
  }

  lemma OthersKeepChosen(s: Setup, m: Message, draft: Draft)
    requires !OfLogin(m) && !m.Authorized? && !m.Select?
    ensures SameChoice(s, Step(s, m, draft).0)
  {
  }

  /** In every run: whatever is enrolled or handed over belongs to the session, and directories
      only to the connection they were asked for. */
  lemma {:induction false} RunKeepsChosen(states: seq<Setup>, turns: seq<Turn>, i: nat)
    requires Run(states, turns) && i < |states|
    ensures Chosen(states[i])
  {
    if i > 0 {
      RunKeepsChosen(states, turns, i - 1);
      StepKeepsChosen(states[i - 1], turns[i - 1].message, turns[i - 1].draft);
    }
  }

  // ----- the connection that is edited -----

  /** A new connection whose primary mount has no path yet. */
  predicate Unused(d: Draft) {
    !d.editing && d.primaryMount && d.remotePath == "" && d.mountpoint == ""
  }

  function Total(d: Draft): nat {
    |d.mounts| + if d.primaryMount then 1 else 0
  }

  function NewPaths(d: Draft, roots: seq<MountRoot>): set<string> {
    set r | r in roots && r.path !in Paths(d) :: r.path
  }

  /** The draft once roots were added: as many mounts more as there are new paths, less the unused
      primary one, which takes the first of them. */
  ghost predicate Added(d: Draft, added: set<string>, after: Draft) {
    && after == d.(mounts := after.mounts, remotePath := after.remotePath) && d.mounts <= after.mounts
    && (if Unused(d) && added != {} then after.remotePath in added else after.remotePath == d.remotePath)
    && Total(after) == Total(d) + |added| - (if Unused(d) && added != {} then 1 else 0)
    && (forall p <- added :: p in Paths(after))
    && (forall p <- Paths(after) :: p in Paths(d) || p in added)
  }

  lemma AddPrimary(d: Draft, path: string, after: Draft)
    requires Added(d, {}, after) && Unused(d) && path !in Paths(after)
    ensures path !in Paths(d) && Added(d, {path}, after.(remotePath := path))
  {
    NothingAdded(d, after);
  }

  lemma NothingAdded(d: Draft, after: Draft)
    requires Added(d, {}, after)
    ensures after == d
  {
    assert |after.mounts| == |d.mounts|;
  }

  lemma AddMount(d: Draft, added: set<string>, path: string, after: Draft)
    requires Added(d, added, after) && !(Unused(d) && added == {}) && path !in Paths(after) && path != ""
    ensures path !in added && path !in Paths(d)
    ensures Added(d, added + {path}, after.(mounts := after.mounts + [path]))
  {
    assert Paths(after.(mounts := after.mounts + [path])) == Paths(after) + {path};
    PathsStay(d, added, after);
  }

  lemma PathsStay(d: Draft, added: set<string>, after: Draft)
    requires Added(d, added, after)
    ensures forall p <- Paths(d) :: p != "" ==> p in Paths(after)
  {
    forall p | p in d.mounts ensures p in after.mounts {
      var i :| 0 <= i < |d.mounts| && d.mounts[i] == p;
      assert after.mounts[i] == p;
    }
  }

  lemma AlreadyThere(d: Draft, added: set<string>, path: string, after: Draft)
    requires Added(d, added, after) && path in Paths(after)
    ensures path in Paths(d) || added + {path} == added
  {
  }

  /** Gives the draft a mount for every root that it has no path for. */
  method ApplySelectedRoots(d: Draft, roots: seq<MountRoot>) returns (after: Draft)
    requires forall r <- roots :: r.path != ""
    ensures Added(d, NewPaths(d, roots), after)
  {
    after := d;
    var unused := Unused(d);
    assert NewPaths(d, roots[..0]) == {};
    for i := 0 to |roots|
      invariant Added(d, NewPaths(d, roots[..i]), after)
      invariant unused <==> Unused(d) && NewPaths(d, roots[..i]) == {}
    {
      var path := roots[i].path;
      AnotherRoot(d, roots, i);
      if !((after.primaryMount && after.remotePath == path) || path in after.mounts) {
        if unused {
          AddPrimary(d, path, after);
          after := after.(remotePath := path);
          unused := false;
        } else {
          AddMount(d, NewPaths(d, roots[..i]), path, after);
          after := after.(mounts := after.mounts + [path]);
        }
      } else {
        AlreadyThere(d, NewPaths(d, roots[..i]), path, after);
      }
    }
    assert roots[..|roots|] == roots;
  }

  lemma AnotherRoot(d: Draft, roots: seq<MountRoot>, i: nat)
    requires i < |roots|
    ensures NewPaths(d, roots[..i + 1])
         == NewPaths(d, roots[..i]) + if roots[i].path in Paths(d) then {} else {roots[i].path}
  {
    assert roots[..i + 1] == roots[..i] + [roots[i]];
  }

  /** What is handed over fits into the connection as it was when the setup began: it never gets
      more than 64 mounts by it. */
  lemma HandedOverFits(s: Setup, m: Message, draft: Draft, d: Draft, after: Draft)
    requires Inv(s) && !Step(s, m, draft).2.NoOutcome?
    requires s.existing == Paths(d) && s.mountSlots == Slots(d)
    requires Added(d, NewPaths(d, Step(s, m, draft).2.roots), after)
    ensures Total(after) <= 64 || Total(after) == Total(d)
  {
    OutcomeWithinSlots(s, m, draft);
    assert NewPaths(d, Step(s, m, draft).2.roots)
        == set r | r in Step(s, m, draft).2.roots && r.path !in s.existing :: r.path;
  }
}
