/** Every change of the saved connections: validated upserts, removals, reorderings and edits of
    the mount paths, and what every run of them keeps. */
module RegistryChanges {
  import opened Common
  import opened Text
  import opened ConnectionKeys
  import opened Registry

  function Ids(servers: seq<Server>): set<string> {
    set s | s in servers :: s.id
  }

  predicate Distinct(ids: seq<string>) {
    forall i, j :: 0 <= i < j < |ids| ==> ids[i] != ids[j]
  }

  // ----- several upserts, all or none -----

  ghost function UpsertedAll(servers: seq<Server>, updates: seq<Server>, home: string, windows: bool)
    : Option<seq<Server>>
    decreases |updates|
  {
    if updates == [] then Some(servers)
    else if Storable(updates[0], servers, home, windows)
    then UpsertedAll(Upserted(servers, updates[0]), updates[1..], home, windows)
    else None
  }

  method UpsertServers(servers: seq<Server>, updates: seq<Server>, home: string, windows: bool)
    returns (r: Option<seq<Server>>)
    ensures r == UpsertedAll(servers, updates, home, windows)
  {
    var current := servers;
    for i := 0 to |updates|
      invariant UpsertedAll(servers, updates, home, windows) == UpsertedAll(current, updates[i..], home, windows)
    {
      assert updates[i..][0] == updates[i] && updates[i..][1..] == updates[i + 1..];
      var next := Upsert(current, updates[i], home, windows);
      if next.None? { return None; }
      current := next.value;
    }
    r := Some(current);
  }

  // ----- removal -----

  function Without(servers: seq<Server>, ids: set<string>): (r: seq<Server>)
    ensures forall s :: s in r <==> s in servers && s.id !in ids
  {
    if servers == [] then []
    else (if servers[0].id in ids then [] else [servers[0]]) + Without(servers[1..], ids)
  }

  /** Removes exactly the selected connections, or nothing when an id is unknown or repeated. */
  method RemoveServers(servers: seq<Server>, ids: seq<string>) returns (r: Option<seq<Server>>)
    ensures r.Some? <==> Distinct(ids) && ToSet(ids) <= Ids(servers)
    ensures r.Some? ==> r.value == Without(servers, ToSet(ids))
  {
    var ok := ExactSelection(servers, ids);
    if !ok { return None; }
    r := Some(Without(servers, ToSet(ids)));
  }

  method ExactSelection(servers: seq<Server>, ids: seq<string>) returns (ok: bool)
    ensures ok <==> Distinct(ids) && ToSet(ids) <= Ids(servers)
  {
    var selected: set<string> := {};
    for i := 0 to |ids|
      invariant selected == ToSet(ids[..i]) && Distinct(ids[..i]) && selected <= Ids(servers)
    {
      assert ids[i] in ToSet(ids) && ids[..i + 1] == ids[..i] + [ids[i]];
      if ids[i] in selected {
        ghost var k :| 0 <= k < i && ids[k] == ids[i];
        return false;
      }
      if ids[i] !in Ids(servers) { return false; }
      selected := selected + {ids[i]};
    }
    assert ids[..|ids|] == ids;
    ok := true;
  }

  // ----- reordering -----

  predicate Reorderable(servers: seq<Server>, ids: seq<string>) {
    |ids| == |servers| && Distinct(ids) && ToSet(ids) <= Ids(servers)
  }

  predicate Reordered(servers: seq<Server>, ids: seq<string>, r: seq<Server>) {
    |r| == |ids| && forall i :: 0 <= i < |ids| ==> r[i] in servers && r[i].id == ids[i]
  }

  /** The last connection of each id. */
  method ById(servers: seq<Server>) returns (byId: map<string, Server>)
    ensures byId.Keys == Ids(servers) && forall id <- byId :: byId[id] in servers && byId[id].id == id
  {
    byId := map[];
    for i := 0 to |servers|
      invariant byId.Keys == Ids(servers[..i]) && forall id <- byId :: byId[id] in servers && byId[id].id == id
    {
      assert servers[..i + 1] == servers[..i] + [servers[i]];
      byId := byId[servers[i].id := servers[i]];
    }
    assert servers[..|servers|] == servers;
  }

  method ReorderServers(servers: seq<Server>, ids: seq<string>) returns (r: Option<seq<Server>>)
    ensures r.Some? <==> Reorderable(servers, ids)
    ensures r.Some? ==> Reordered(servers, ids, r.value)
  {
    if |ids| != |servers| { return None; }
    var byId := ById(servers);
    var ok := ExactSelection(servers, ids);
    if !ok { return None; }
    var reordered: seq<Server> := [];
    for i := 0 to |ids|
      invariant Reordered(servers, ids[..i], reordered)
    {
      assert ids[i] in ToSet(ids);
      reordered := reordered + [byId[ids[i]]];
    }
    assert ids[..|ids|] == ids;
    r := Some(reordered);
  }

  lemma {:induction false} DistinctSize(ids: seq<string>)
    requires Distinct(ids)
    ensures |ToSet(ids)| == |ids|
  {
    if ids != [] {
      DistinctSize(ids[1..]);
      assert ids == [ids[0]] + ids[1..];
      assert ToSet(ids) == ToSet(ids[1..]) + {ids[0]};
    }
  }

  /** Fewer ids than connections as soon as one is shared. */
  lemma {:induction false} IdsSize(servers: seq<Server>)
    ensures |Ids(servers)| <= |servers| && (|Ids(servers)| == |servers| ==> DistinctIds(servers))
  {
    if servers != [] {
      IdsSize(servers[1..]);
      assert servers == [servers[0]] + servers[1..];
      assert Ids(servers) == Ids(servers[1..]) + {servers[0].id};
      if |Ids(servers)| == |servers| { DistinctCons(servers); }
    }
  }

  lemma DistinctCons(servers: seq<Server>)
    requires servers != [] && DistinctIds(servers[1..]) && servers[0].id !in Ids(servers[1..])
    ensures DistinctIds(servers)
  {
    forall i, j | 0 <= i < j < |servers| ensures servers[i].id != servers[j].id {
      assert servers[j] == servers[1..][j - 1] && servers[j] in servers[1..];
      assert i > 0 ==> servers[i] == servers[1..][i - 1];
    }
  }

  lemma SameSize(a: set<string>, b: set<string>)
    requires a <= b && |a| >= |b|
    ensures a == b
  {
    if x :| x in b && x !in a { SubsetSize(a, b - {x}); }
  }

  /** An accepted order names every connection once, so that no id is shared, and the result is a
      permutation. */
  lemma ReorderPermutes(servers: seq<Server>, ids: seq<string>, r: seq<Server>)
    requires Reorderable(servers, ids) && Reordered(servers, ids, r)
    ensures DistinctIds(servers) && ToSet(ids) == Ids(servers)
    ensures multiset(r) == multiset(servers)
  {
    DistinctSize(ids);
    IdsSize(servers);
    SameSize(ToSet(ids), Ids(servers));
    SubsetSize(ToSet(ids), Ids(servers));
    forall s | s in servers ensures s in r {
      assert s.id in ToSet(ids);
      var i :| 0 <= i < |ids| && ids[i] == s.id;
      assert r[i] in servers && r[i].id == s.id;
    }
    DistinctMultiset(r);
    DistinctMultiset(servers);
    assert (set s | s in r) == (set s | s in servers);
  }

  lemma {:induction false} DistinctMultiset(servers: seq<Server>)
    requires DistinctIds(servers)
    ensures multiset(servers) == multiset(set s | s in servers)
  {
    if servers != [] {
      var rest := servers[1..];
      assert servers == [servers[0]] + rest;
      DistinctMultiset(rest);
      assert (set s | s in servers) == (set s | s in rest) + {servers[0]};
    }
  }

  // ----- editing the mount paths -----

  /** The new remote path, mountpoint, further mounts and whether there is a primary one. */
  datatype Paths = Paths(remotePath: string, mountpoint: string, mounts: seq<Mapping>, primaryMount: bool)

  function WithPaths(s: Server, p: Paths): Server {
    s.(remotePath := p.remotePath, mountpoint := p.mountpoint, mounts := p.mounts, primaryMount := p.primaryMount)
  }

  function TargetIds(targets: seq<Target>): set<string> {
    set t | t in targets :: t.id
  }

  /** No mount operation holds one of the targets, and the ones that are mounted stay as they are. */
  predicate Editable(before: seq<Target>, now: seq<Target>, busy: set<string>, mounted: set<string>) {
    && TargetIds(before) + TargetIds(now) !! busy
    && forall t <- before :: t.id in mounted ==> t in now
  }

  predicate Current(servers: seq<Server>, expected: Server) {
    Place(servers, expected.id) < |servers| && servers[Place(servers, expected.id)] == expected
  }

  method MountedStay(targets: seq<Target>, now: seq<Target>, mounted: set<string>) returns (ok: bool)
    ensures ok <==> forall t <- targets :: t.id in mounted ==> t in now
  {
    for i := 0 to |targets|
      invariant forall k :: 0 <= k < i && targets[k].id in mounted ==> targets[k] in now
    {
      if targets[i].id in mounted && targets[i] !in now { return false; }
    }
    ok := true;
  }

  /** Changes the paths of a connection that is still what the caller saw. `busy` are the ids whose
      mount lock is held, `mounted` the ones with a state file. */
  method UpdateMountPaths(servers: seq<Server>, expected: Server, paths: Paths, busy: set<string>, mounted: set<string>,
                          home: string, windows: bool)
    returns (r: Option<seq<Server>>)
    ensures r.Some? <==>
            && Current(servers, expected)
            && ValidMappings(WithPaths(expected, paths), servers, home, windows)
            && Editable(MountTargets(expected), MountTargets(WithPaths(expected, paths)), busy, mounted)
    ensures r.Some? ==> r.value == Upserted(servers, WithPaths(expected, paths))
  {
    var index := FindPlace(servers, expected.id);
    if index == |servers| || servers[index] != expected { return None; }
    var next := WithPaths(expected, paths);
    var ok := ValidateMountMappings(next, servers, home, windows);
    if !ok { return None; }
    var (oldTargets, newTargets) := (MountTargets(expected), MountTargets(next));
    if TargetIds(oldTargets) + TargetIds(newTargets) !! busy {
      ok := MountedStay(oldTargets, newTargets, mounted);
      if ok { r := Some(servers[index := next]); } else { r := None; }
    } else {
      r := None;
    }
  }

  // ----- what every change keeps -----

  ghost predicate Fit(s: Server, t: Server, home: string, windows: bool) {
    Apart(ClaimsOf(s, home, windows), ClaimsOf(t, home, windows))
  }

  /** With distinct ids, whether all targets are apart depends on the pairs of connections alone. */
  ghost predicate PairsFit(servers: seq<Server>, home: string, windows: bool) {
    && (forall s <- servers :: Granted(ClaimsOf(s, home, windows)))
    && forall s <- servers, t <- servers :: s.id != t.id ==> Fit(s, t, home, windows)
  }

  lemma {:induction false} GrantedPairs(servers: seq<Server>, home: string, windows: bool)
    requires DistinctIds(servers)
    ensures Granted(AllClaims(servers, home, windows)) <==> PairsFit(servers, home, windows)
  {
    if servers != [] {
      var (first, rest) := (servers[0], servers[1..]);
      TailDistinct(servers);
      GrantedPairs(rest, home, windows);
      GrantedAppend(ClaimsOf(first, home, windows), AllClaims(rest, home, windows));
      ApartAll(ClaimsOf(first, home, windows), rest, home, windows);
      PairsCons(first, rest, servers, home, windows);
    }
  }

  lemma TailDistinct(servers: seq<Server>)
    requires servers != [] && DistinctIds(servers)
    ensures DistinctIds(servers[1..]) && servers == [servers[0]] + servers[1..]
    ensures forall s <- servers[1..] :: s.id != servers[0].id
  {
  }

  lemma PairsCons(first: Server, rest: seq<Server>, servers: seq<Server>, home: string, windows: bool)
    requires servers == [first] + rest && forall s <- rest :: s.id != first.id
    ensures PairsFit(servers, home, windows)
            <==> Granted(ClaimsOf(first, home, windows)) && PairsFit(rest, home, windows)
                 && ApartEach(ClaimsOf(first, home, windows), rest, home, windows)
  {
    assert first in servers && forall s <- rest :: s in servers;
    forall s | s in rest ensures Fit(first, s, home, windows) <==> Fit(s, first, home, windows) {
      ApartSymmetric(ClaimsOf(first, home, windows), ClaimsOf(s, home, windows));
    }
  }

  predicate DistinctTargets(servers: seq<Server>) {
    forall s <- servers, t <- servers :: !SameTarget(s, t)
  }

  /** Ids, target identities and explicit local places are all distinct. */
  ghost predicate Separate(servers: seq<Server>, home: string, windows: bool) {
    DistinctIds(servers) && Granted(AllClaims(servers, home, windows))
  }

  lemma UpsertKeeps(servers: seq<Server>, server: Server, home: string, windows: bool)
    requires Separate(servers, home, windows) && ValidMappings(server, servers, home, windows)
    ensures Separate(Upserted(servers, server), home, windows)
  {
    UpsertKeepsIds(servers, server);
    UpsertKeepsGranted(servers, server, home, windows);
  }

  /** Connection targets stay distinct exactly when the changed connection's target is new. */
  lemma TargetsExact(servers: seq<Server>, server: Server)
    requires DistinctIds(servers) && DistinctTargets(servers)
    ensures DistinctTargets(Upserted(servers, server)) <==> NewTarget(server, servers)
  {
    var now := Upserted(servers, server);
    forall s ensures s in now <==> s == server || (s in servers && s.id != server.id) {
      UpsertedFrom(servers, server, s);
    }
    assert server in now;
    if !NewTarget(server, servers) {
      var s :| s in servers && SameTarget(s, server);
      assert s in now;
    }
  }

  lemma UpsertedFrom(servers: seq<Server>, server: Server, s: Server)
    requires DistinctIds(servers)
    ensures s in Upserted(servers, server) <==> s == server || (s in servers && s.id != server.id)
  {
    UpsertKeepsIds(servers, server);
    var i := Place(servers, server.id);
    var now := Upserted(servers, server);
    assert now[i] == server;
    if s in servers && s.id != server.id {
      var k :| 0 <= k < |servers| && servers[k] == s;
      assert now[k] == s;
    }
  }

  lemma {:induction false} UpsertsKeep(servers: seq<Server>, updates: seq<Server>, home: string, windows: bool)
    requires Separate(servers, home, windows) && UpsertedAll(servers, updates, home, windows).Some?
    ensures var now := UpsertedAll(servers, updates, home, windows).value;
      Separate(now, home, windows) && (DistinctTargets(servers) ==> DistinctTargets(now))
    decreases |updates|
  {
    if updates != [] {
      UpsertKeeps(servers, updates[0], home, windows);
      if DistinctTargets(servers) { TargetsExact(servers, updates[0]); }
      UpsertsKeep(Upserted(servers, updates[0]), updates[1..], home, windows);
    }
  }

  /** Any choice of the connections, in any order, is separate as well. */
  lemma PartSeparate(servers: seq<Server>, part: seq<Server>, home: string, windows: bool)
    requires Separate(servers, home, windows) && DistinctIds(part) && forall s <- part :: s in servers
    ensures Separate(part, home, windows) && (DistinctTargets(servers) ==> DistinctTargets(part))
  {
    GrantedPairs(servers, home, windows);
    GrantedPairs(part, home, windows);
  }

  lemma {:induction false} WithoutDistinct(servers: seq<Server>, ids: set<string>)
    requires DistinctIds(servers)
    ensures DistinctIds(Without(servers, ids))
  {
    if servers != [] {
      var rest := Without(servers[1..], ids);
      WithoutDistinct(servers[1..], ids);
      forall s | s in rest ensures s.id != servers[0].id {
        var i :| 0 <= i < |servers[1..]| && servers[1..][i] == s;
        assert servers[i + 1] == s;
      }
    }
  }

  /** The four kinds of change; an edit carries the connection as its editor saw it. */
  datatype Change =
    | Upserts(updates: seq<Server>)
    | Removal(ids: set<string>)
    | Order(order: seq<string>)
    | Edit(expected: Server, paths: Paths)

  /** A refused change leaves everything as it is; an edit may also be refused because of what is
      mounted or busy. */
  ghost predicate Step(before: seq<Server>, change: Change, after: seq<Server>, home: string, windows: bool) {
    match change
    case Upserts(updates) =>
      var upserted := UpsertedAll(before, updates, home, windows);
      after == if upserted.Some? then upserted.value else before
    case Removal(ids) => after == before || after == Without(before, ids)
    case Order(order) => if Reorderable(before, order) then Reordered(before, order, after) else after == before
    case Edit(expected, paths) =>
      after == before
      || (Current(before, expected) && ValidMappings(WithPaths(expected, paths), before, home, windows)
          && after == Upserted(before, WithPaths(expected, paths)))
  }

  /** An edit that takes place and gives its connection the target of another one. */
  predicate Repeats(before: seq<Server>, change: Change, after: seq<Server>) {
    change.Edit? && after != before && !NewTarget(WithPaths(change.expected, change.paths), before)
  }

  /** Every change keeps ids, target identities and explicit places distinct, and it keeps the
      connection targets distinct exactly when it is not such an edit. */
  lemma StepKeeps(before: seq<Server>, change: Change, after: seq<Server>, home: string, windows: bool)
    requires Step(before, change, after, home, windows) && Separate(before, home, windows)
    ensures Separate(after, home, windows)
    ensures DistinctTargets(before) ==> (DistinctTargets(after) <==> !Repeats(before, change, after))
  {
    match change
    case Upserts(updates) =>
      if UpsertedAll(before, updates, home, windows).Some? { UpsertsKeep(before, updates, home, windows); }
    case Removal(ids) =>
      WithoutDistinct(before, ids);
      PartSeparate(before, Without(before, ids), home, windows);
    case Order(order) =>
      if Reorderable(before, order) { PartSeparate(before, after, home, windows); }
    case Edit(expected, paths) =>
      if after != before { EditKeeps(before, WithPaths(expected, paths), home, windows); }
  }

  lemma EditKeeps(before: seq<Server>, next: Server, home: string, windows: bool)
    requires Separate(before, home, windows) && ValidMappings(next, before, home, windows)
    ensures Separate(Upserted(before, next), home, windows)
    ensures DistinctTargets(before) ==> (DistinctTargets(Upserted(before, next)) <==> NewTarget(next, before))
  {
    UpsertKeeps(before, next, home, windows);
    if DistinctTargets(before) { TargetsExact(before, next); }
  }

  ghost predicate Run(states: seq<seq<Server>>, changes: seq<Change>, home: string, windows: bool) {
    && |states| == |changes| + 1
    && forall i :: 0 <= i < |changes| ==> Step(states[i], changes[i], states[i + 1], home, windows)
  }

  /** From separate connections, every sequence of changes keeps them separate. */
  lemma {:induction false} RunKeepsSeparate(states: seq<seq<Server>>, changes: seq<Change>, i: nat, home: string,
                                            windows: bool)
    requires Run(states, changes, home, windows) && i < |states| && Separate(states[0], home, windows)
    ensures Separate(states[i], home, windows)
  {
    if i > 0 {
      RunKeepsSeparate(states, changes, i - 1, home, windows);
      StepKeeps(states[i - 1], changes[i - 1], states[i], home, windows);
    }
  }

  predicate NoRepeats(states: seq<seq<Server>>, changes: seq<Change>)
    requires |states| == |changes| + 1
  {
    forall i :: 0 <= i < |changes| ==> !Repeats(states[i], changes[i], states[i + 1])
  }

  /** What every step keeps holds throughout. */
  lemma {:induction false} Persists(p: seq<Server> -> bool, states: seq<seq<Server>>, i: nat)
    requires i < |states| && p(states[0])
    requires forall k :: 0 <= k < |states| - 1 && p(states[k]) ==> p(states[k + 1])
    ensures p(states[i])
  {
    if i > 0 { Persists(p, states, i - 1); }
  }

  lemma TargetsStay(states: seq<seq<Server>>, changes: seq<Change>, i: nat, home: string, windows: bool)
    requires Run(states, changes, home, windows) && NoRepeats(states, changes) && i < |changes|
    requires Separate(states[0], home, windows)
    ensures DistinctTargets(states[i]) ==> DistinctTargets(states[i + 1])
  {
    StepOfRun(states, changes, i, home, windows);
  }

  lemma StepOfRun(states: seq<seq<Server>>, changes: seq<Change>, i: nat, home: string, windows: bool)
    requires Run(states, changes, home, windows) && i < |changes| && Separate(states[0], home, windows)
    ensures DistinctTargets(states[i]) ==>
              (DistinctTargets(states[i + 1]) <==> !Repeats(states[i], changes[i], states[i + 1]))
  {
    RunKeepsSeparate(states, changes, i, home, windows);
    StepKeeps(states[i], changes[i], states[i + 1], home, windows);
  }

  /** The connection targets stay distinct throughout a run exactly when no edit repeats one. */
  lemma RunTargetsExact(states: seq<seq<Server>>, changes: seq<Change>, home: string, windows: bool)
    requires Run(states, changes, home, windows)
    requires Separate(states[0], home, windows) && DistinctTargets(states[0])
    ensures (forall i :: 0 <= i < |states| ==> DistinctTargets(states[i])) <==> NoRepeats(states, changes)
  {
    if NoRepeats(states, changes) {
      forall k | 0 <= k < |changes| ensures DistinctTargets(states[k]) ==> DistinctTargets(states[k + 1]) {
        TargetsStay(states, changes, k, home, windows);
      }
      forall i | 0 <= i < |states| ensures DistinctTargets(states[i]) {
        Persists(DistinctTargets, states, i);
      }
    } else {
      var i :| 0 <= i < |changes| && Repeats(states[i], changes[i], states[i + 1]);
      StepOfRun(states, changes, i, home, windows);
    }
  }

  // ----- an edit that repeats a target -----

  function Automatic(id: string, remotePath: string): Server {
    Server(id, "h", "u", "22", true, remotePath, "", [])
  }

  /** Two connections of one login with automatic mountpoints: the second one's remote path may be
      edited to that of the first, although saving it that way would be refused. */
  lemma EditRepeatsTarget(home: string, windows: bool)
    ensures var (a, b, next) := (Automatic("a", "x"), Automatic("b", "y"), Automatic("b", "x"));
      var change := Edit(b, Paths("x", "", [], true));
      && Separate([a, b], home, windows) && DistinctTargets([a, b])
      && Step([a, b], change, [a, next], home, windows) && Repeats([a, b], change, [a, next])
      && !Storable(next, [a, b], home, windows)
      && !DistinctTargets([a, next])
  {
    var (a, b, next) := (Automatic("a", "x"), Automatic("b", "y"), Automatic("b", "x"));
    AutomaticSeparate(a, b, home, windows);
    AutomaticValid(a, b, next, home, windows);
    SameLogin();
    assert Place([a, b], "b") == 1 by { assert [a, b][1..] == [b]; }
    assert Upserted([a, b], next) == [a, next];
    assert a in [a, next] && next in [a, next] && a in [a, b];
  }

  lemma AutomaticSeparate(a: Server, b: Server, home: string, windows: bool)
    requires a == Automatic("a", "x") && b == Automatic("b", "y")
    ensures Separate([a, b], home, windows)
  {
    AutomaticClaims("a", "x", home, windows);
    AutomaticClaims("b", "y", home, windows);
    AllOfTwo(a, b, home, windows);
    GrantedAppend(ClaimsOf(a, home, windows), ClaimsOf(b, home, windows));
  }

  lemma AutomaticValid(a: Server, b: Server, next: Server, home: string, windows: bool)
    requires a == Automatic("a", "x") && b == Automatic("b", "y") && next == Automatic("b", "x")
    ensures ValidMappings(next, [a, b], home, windows)
  {
    AutomaticClaims("a", "x", home, windows);
    AutomaticClaims("b", "x", home, windows);
    PlainTexts();
    OthersOfTwo(a, b, next);
  }

  lemma AutomaticClaims(id: string, remotePath: string, home: string, windows: bool)
    ensures ClaimsOf(Automatic(id, remotePath), home, windows) == [Claim(id, None)]
  {
    assert Trim("") == "";
  }

  lemma PlainTexts()
    ensures PlainPath("x") && PlainPath("y") && PlainPath("") && Trim("") == ""
  {
  }

  lemma OthersOfTwo(a: Server, b: Server, next: Server)
    requires a.id != b.id == next.id
    ensures OtherTargets(next, [a, b]) == MountTargets(a)
  {
    assert [a, b][1..] == [b] && [b][1..] == [];
    assert OtherTargets(next, [b]) == [];
  }

  lemma SameLogin()
    ensures SameTarget(Automatic("a", "x"), Automatic("b", "x"))
    ensures !SameTarget(Automatic("a", "x"), Automatic("b", "y"))
    ensures !SameTarget(Automatic("b", "y"), Automatic("a", "x"))
  {
    var (x, y) := (RemotePathText("x"), RemotePathText("y"));
    assert TrimSlashes("x") == "x" && TrimSlashes("y") == "y";
  }
}
