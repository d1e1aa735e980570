/** Planning an import of connections: fresh ids, no duplicates among what is new, and an
    application of the plan that touches nothing that was not planned. */
module Imports {
  import opened Common
  import opened Text
  import opened ConnectionKeys

  datatype AuthMethod = Key | Password

  datatype ConnectionMethod = Native | Openssh | Interactive

  /** A secret as it is saved: an obscured copy, a reference into the credential store, or none. */
  datatype Secret = Secret(obscured: string, credential: string)

  const NoSecret: Secret := Secret("", "")

  /** A connection; `ssh` is what else an SSH host decides, and `kept` what it leaves alone. */
  datatype Profile = Profile(
    id: string, name: string, source: string, hostAlias: string, host: string, user: string, port: string,
    auth: AuthMethod, keyFile: string, connectionMethod: ConnectionMethod, password: Secret, keyPass: Secret,
    remotePath: string, mountpoint: string, ssh: string, kept: string)

  function Ids(servers: seq<Profile>): set<string> {
    set s | s in servers :: s.id
  }

  // ----- fresh ids -----

  function Suffixed(base: string, index: nat): string {
    base + "-" + Decimal(index)
  }

  /** The base and its suffixes from 2 to below `index`. */
  function Tried(base: string, index: nat): (r: set<string>)
    requires index >= 2
    ensures base in r && forall k :: 2 <= k < index ==> Suffixed(base, k) in r
    ensures forall id <- r :: id == base || exists k :: 2 <= k < index && id == Suffixed(base, k)
  {
    if index == 2 then {base} else Tried(base, index - 1) + {Suffixed(base, index - 1)}
  }

  lemma SuffixedInjective(base: string, i: nat, j: nat)
    requires Suffixed(base, i) == Suffixed(base, j)
    ensures i == j
  {
    var n := |base| + 1;
    assert Suffixed(base, i)[n..] == Decimal(i) && Suffixed(base, j)[n..] == Decimal(j);
    DecimalInjective(i, j);
  }

  lemma {:induction false} TriedSize(base: string, index: nat)
    requires index >= 2
    ensures |Tried(base, index)| == index - 1
  {
    if index > 2 {
      TriedSize(base, index - 1);
      var last := Suffixed(base, index - 1);
      assert |last| > |base|;
      if last in Tried(base, index - 1) {
        var k :| 2 <= k < index - 1 && last == Suffixed(base, k);
        SuffixedInjective(base, k, index - 1);
        assert false;
      }
    }
  }

  lemma {:induction false} IdsAtMost(servers: seq<Profile>)
    ensures |Ids(servers)| <= |servers|
  {
    if servers != [] {
      IdsAtMost(servers[1..]);
      assert Ids(servers) == Ids(servers[1..]) + {servers[0].id} by {
        assert servers == [servers[0]] + servers[1..];
      }
    }
  }

  /** As long as all that was tried is used, fewer were tried than there are servers. */
  lemma TriedAtMost(base: string, index: nat, servers: seq<Profile>)
    requires index >= 2 && Tried(base, index) <= Ids(servers)
    ensures index - 1 <= |servers|
  {
    TriedSize(base, index);
    SubsetSize(Tried(base, index), Ids(servers));
    IdsAtMost(servers);
  }

  /** The base, or its first free suffix; at most one more try than there are servers. */
  method UniqueId(base: string, servers: seq<Profile>) returns (r: string, ghost tries: nat)
    ensures r !in Ids(servers) && 1 <= tries <= |servers| + 1
    ensures r == if tries == 1 then base else Suffixed(base, tries)
    ensures tries > 1 ==> Tried(base, tries) <= Ids(servers)
  {
    if base !in Ids(servers) { return base, 1; }
    var index := 2;
    TriedAtMost(base, 2, servers);
    while Suffixed(base, index) in Ids(servers)
      invariant index >= 2 && Tried(base, index) <= Ids(servers) && index - 1 <= |servers|
      decreases |servers| + 2 - index
    {
      index := index + 1;
      TriedAtMost(base, index, servers);
    }
    r, tries := Suffixed(base, index), index;
  }

  // ----- duplicates -----

  function AliasKey(s: Profile): string {
    LowerAll(Trim(s.hostAlias))
  }

  function ImportTarget(s: Profile): (string, string, string) {
    Login(s.host, s.user, s.port)
  }

  datatype ImportStatus = New | Same | SameHost | SameTarget | Invalid

  /** How an imported connection repeats a known one, if it does. */
  function Repeats(s: Profile, other: Profile): ImportStatus {
    if AliasKey(other) == AliasKey(s) && ImportTarget(other) == ImportTarget(s) then Same
    else if AliasKey(s) != "" && AliasKey(other) == AliasKey(s) then SameHost
    else if ImportTarget(other) == ImportTarget(s) then SameTarget
    else New
  }

  function Fingerprint(s: Profile): ((string, string, string), string, string) {
    TargetKey(s.host, s.user, s.port, s.remotePath, s.mountpoint)
  }

  /** How an import repeats a known connection: by its whole fingerprint when full connections
      are imported, and otherwise as an SSH host. */
  function Repetition(full: bool, s: Profile, other: Profile): ImportStatus {
    if full then (if Fingerprint(other) == Fingerprint(s) then SameTarget else New) else Repeats(s, other)
  }

  function FindFirst(known: seq<Profile>, p: Profile -> bool): (r: Option<Profile>)
    ensures r.Some? ==> r.value in known && p(r.value)
    ensures r.None? <==> forall k <- known :: !p(k)
  {
    if known == [] then None else if p(known[0]) then Some(known[0]) else FindFirst(known[1..], p)
  }

  /** The three searches, the closest kind of duplicate first. */
  function ImportDuplicate(s: Profile, known: seq<Profile>): (r: (ImportStatus, Option<Profile>))
    ensures r.0 == New <==> r.1.None?
    ensures r.0 == New <==> forall k <- known :: Repeats(s, k) == New
    ensures r.1.Some? ==> r.1.value in known && Repeats(s, r.1.value) != New
    ensures r.0 == Same <==> exists k <- known :: Repeats(s, k) == Same
    ensures r.0 == SameTarget ==> forall k <- known :: Repeats(s, k) in {SameTarget, New}
    ensures r.0 != Invalid
  {
    var same := FindFirst(known, k => AliasKey(k) == AliasKey(s) && ImportTarget(k) == ImportTarget(s));
    var host := if AliasKey(s) == "" then None else FindFirst(known, k => AliasKey(k) == AliasKey(s));
    var target := FindFirst(known, k => ImportTarget(k) == ImportTarget(s));
    if same.Some? then (Same, same)
    else if host.Some? then (SameHost, host)
    else if target.Some? then (SameTarget, target)
    else (New, None)
  }

  // ----- plans -----

  datatype ImportItem = ImportItem(
    row: string, status: ImportStatus, server: Option<Profile>, matchedId: Option<string>,
    canOverwrite: bool, overwriteProtected: bool)

  /** An SSH host to import, with the sanitised base of its id, or the reason why it is invalid. */
  datatype Import = Import(row: string, server: Result<Profile, string>, base: string)

  function NewServers(items: seq<ImportItem>): seq<Profile> {
    if items == [] then []
    else
      var last := items[|items| - 1];
      NewServers(items[..|items| - 1]) + if last.status == New && last.server.Some? then [last.server.value] else []
  }

  /** What is known when item `i` is planned. */
  function KnownAt(items: seq<ImportItem>, i: nat, existing: seq<Profile>): seq<Profile>
    requires i <= |items|
  {
    existing + NewServers(items[..i])
  }

  /** What an import repeats: the closest known connection when only an SSH host is imported,
      and the first with the whole fingerprint otherwise. */
  function Duplicate(full: bool, s: Profile, known: seq<Profile>): (r: (ImportStatus, Option<Profile>))
    ensures r.0 == New <==> r.1.None?
    ensures r.0 == New <==> forall k <- known :: Repetition(full, s, k) == New
    ensures r.1.Some? ==> r.1.value in known && Repetition(full, s, r.1.value) != New
    ensures r.0 != Invalid
  {
    if full then
      var duplicate := FindFirst(known, k => Fingerprint(k) == Fingerprint(s));
      (if duplicate.Some? then SameTarget else New, duplicate)
    else ImportDuplicate(s, known)
  }

  /** A planned item has an unused id and says what it repeats; an overwrite is offered exactly
      for an existing match that is not protected. */
  ghost predicate Planned(full: bool, item: ImportItem, known: seq<Profile>, existing: seq<Profile>,
                          isProtected: set<string>) {
    if item.status == Invalid then item.server.None? && item.matchedId.None? && !item.canOverwrite
    else
      && item.server.Some? && item.server.value.id !in Ids(known)
      && (var (status, duplicate) := Duplicate(full, item.server.value, known);
          item.status == status && item.matchedId == MatchedId(duplicate, existing))
      && (item.canOverwrite <==> item.matchedId.Some? && item.matchedId.value !in isProtected)
      && (item.overwriteProtected <==> item.matchedId.Some? && item.matchedId.value in isProtected)
  }

  ghost predicate Plan(full: bool, items: seq<ImportItem>, existing: seq<Profile>, isProtected: set<string>) {
    forall i :: 0 <= i < |items| ==> Planned(full, items[i], KnownAt(items, i, existing), existing, isProtected)
  }

  function MatchedId(duplicate: Option<Profile>, existing: seq<Profile>): (r: Option<string>)
    ensures r.Some? ==> r.value in Ids(existing)
  {
    if duplicate.Some? && duplicate.value.id in Ids(existing) then Some(duplicate.value.id) else None
  }

  /** One SSH host: its item, given everything known so far. */
  method PlanSshImport(imported: Import, known: seq<Profile>, existing: seq<Profile>, isProtected: set<string>)
    returns (item: ImportItem)
    requires forall k <- existing :: k in known
    ensures Planned(false, item, known, existing, isProtected)
    ensures PlannedFrom(imported, item)
  {
    if imported.server.Err? {
      return ImportItem(imported.row, Invalid, None, None, false, false);
    }
    var id, _ := UniqueId(imported.base, known);
    var server := imported.server.value.(id := id);
    var (status, duplicate) := ImportDuplicate(server, known);
    var matched := MatchedId(duplicate, existing);
    var guarded := matched.Some? && matched.value in isProtected;
    item := ImportItem(imported.row, status, Some(server), matched, matched.Some? && !guarded, guarded);
  }

  /** The item carries the imported connection under an id of its own, or is invalid. */
  ghost predicate PlannedFrom(imported: Import, item: ImportItem) {
    && item.row == imported.row
    && match imported.server
       case Err(_) => item.status == Invalid
       case Ok(server) =>
         item.status != Invalid && item.server.Some? && item.server.value == server.(id := item.server.value.id)
  }

  method PlanSshImports(imports: seq<Import>, existing: seq<Profile>, isProtected: set<string>)
    returns (items: seq<ImportItem>)
    ensures |items| == |imports| && Plan(false, items, existing, isProtected)
    ensures forall i :: 0 <= i < |items| ==> PlannedFrom(imports[i], items[i])
  {
    var known := existing;
    items := [];
    for i := 0 to |imports|
      invariant |items| == i && known == existing + NewServers(items) && Plan(false, items, existing, isProtected)
      invariant forall j :: 0 <= j < i ==> PlannedFrom(imports[j], items[j])
    {
      var item := PlanSshImport(imports[i], known, existing, isProtected);
      PlanGrows(false, items, item, existing, isProtected);
      items := items + [item];
      if item.status == New { known := known + [item.server.value]; }
    }
  }

  /** One full connection: it is new unless its whole fingerprint is known. */
  method PlanServerImport(imported: Profile, base: string, known: seq<Profile>, existing: seq<Profile>,
                          isProtected: set<string>)
    returns (item: ImportItem)
    requires forall k <- existing :: k in known
    ensures Planned(true, item, known, existing, isProtected)
            && PlannedFrom(Import(imported.name, Ok(imported), base), item)
  {
    var duplicate := FindFirst(known, k => Fingerprint(k) == Fingerprint(imported));
    var matched := MatchedId(duplicate, existing);
    var guarded := matched.Some? && matched.value in isProtected;
    var id, _ := UniqueId(base, known);
    var server := imported.(id := id);
    SameFingerprint(server, imported, known);
    var status := if duplicate.Some? then SameTarget else New;
    item := ImportItem(imported.name, status, Some(server), matched, matched.Some? && !guarded, guarded);
  }

  lemma {:induction false} SameFingerprint(s: Profile, t: Profile, known: seq<Profile>)
    requires Fingerprint(s) == Fingerprint(t)
    ensures FindFirst(known, k => Fingerprint(k) == Fingerprint(s))
         == FindFirst(known, k => Fingerprint(k) == Fingerprint(t))
  {
    if known != [] { SameFingerprint(s, t, known[1..]); }
  }

  method PlanServerImports(imports: seq<(Profile, string)>, existing: seq<Profile>, isProtected: set<string>)
    returns (items: seq<ImportItem>)
    ensures |items| == |imports| && Plan(true, items, existing, isProtected)
    ensures forall i :: 0 <= i < |items| ==>
              PlannedFrom(Import(imports[i].0.name, Ok(imports[i].0), imports[i].1), items[i])
  {
    var known := existing;
    items := [];
    for i := 0 to |imports|
      invariant |items| == i && known == existing + NewServers(items) && Plan(true, items, existing, isProtected)
      invariant forall j :: 0 <= j < i ==>
                PlannedFrom(Import(imports[j].0.name, Ok(imports[j].0), imports[j].1), items[j])
    {
      var item := PlanServerImport(imports[i].0, imports[i].1, known, existing, isProtected);
      PlanGrows(true, items, item, existing, isProtected);
      items := items + [item];
      if item.status == New { known := known + [item.server.value]; }
    }
  }

  lemma PlanGrows(full: bool, items: seq<ImportItem>, item: ImportItem, existing: seq<Profile>,
                  isProtected: set<string>)
    requires Plan(full, items, existing, isProtected)
    requires Planned(full, item, existing + NewServers(items), existing, isProtected)
    ensures Plan(full, items + [item], existing, isProtected)
    ensures existing + NewServers(items + [item])
         == existing + NewServers(items) + if item.status == New then [item.server.value] else []
  {
    var more := items + [item];
    assert more[..|items|] == items;
    forall i | 0 <= i < |more| ensures Planned(full, more[i], KnownAt(more, i, existing), existing, isProtected) {
      PlannedStays(full, items, item, i, existing, isProtected);
    }
  }

  lemma PlannedStays(full: bool, items: seq<ImportItem>, item: ImportItem, i: nat, existing: seq<Profile>,
                     isProtected: set<string>)
    requires Plan(full, items, existing, isProtected) && i <= |items|
    requires Planned(full, item, existing + NewServers(items), existing, isProtected)
    ensures Planned(full, (items + [item])[i], KnownAt(items + [item], i, existing), existing, isProtected)
  {
    KnownPrefix(items, item, i, existing);
    assert items[..|items|] == items;
  }

  lemma KnownPrefix(items: seq<ImportItem>, item: ImportItem, i: nat, existing: seq<Profile>)
    requires i <= |items|
    ensures KnownAt(items + [item], i, existing) == KnownAt(items, i, existing)
  {
    assert (items + [item])[..i] == items[..i];
  }

  // ----- what a plan promises -----

  /** New items have ids unlike each other's and unlike the existing ones, and none repeats an
      existing connection or a new one before it. */
  lemma NewItemsAreFresh(full: bool, items: seq<ImportItem>, existing: seq<Profile>, isProtected: set<string>, i: nat)
    requires Plan(full, items, existing, isProtected) && i < |items| && items[i].status == New
    ensures items[i].server.value.id !in Ids(existing)
    ensures forall k <- existing :: Repetition(full, items[i].server.value, k) == New
    ensures forall j :: 0 <= j < i && items[j].status == New ==>
              && items[j].server.value.id != items[i].server.value.id
              && Repetition(full, items[i].server.value, items[j].server.value) == New
  {
    var known := KnownAt(items, i, existing);
    assert Planned(full, items[i], known, existing, isProtected);
    forall k | k in existing ensures k in known {
    }
    forall j | 0 <= j < i && items[j].status == New ensures items[j].server.value in known {
      assert Planned(full, items[j], KnownAt(items, j, existing), existing, isProtected);
      NewServersHas(items[..i], j);
    }
  }

  lemma {:induction false} NewServersHas(items: seq<ImportItem>, j: nat)
    requires j < |items| && items[j].status == New && items[j].server.Some?
    ensures items[j].server.value in NewServers(items)
  {
    if j < |items| - 1 {
      NewServersHas(items[..|items| - 1], j);
    }
  }

  /** An overwrite is offered only for an existing connection that the import repeats. */
  lemma OverwriteRepeats(full: bool, items: seq<ImportItem>, existing: seq<Profile>, isProtected: set<string>, i: nat)
    requires Plan(full, items, existing, isProtected) && i < |items| && items[i].canOverwrite
    ensures items[i].server.Some? && items[i].matchedId.Some? && items[i].matchedId.value !in isProtected
    ensures exists k <- existing ::
              k.id == items[i].matchedId.value && Repetition(full, items[i].server.value, k) != New
  {
    var known := KnownAt(items, i, existing);
    assert Planned(full, items[i], known, existing, isProtected);
    var duplicate := Duplicate(full, items[i].server.value, known).1.value;
    if duplicate !in existing {
      var j := NewServersFrom(items[..i], duplicate);
      NewItemsAreFresh(full, items, existing, isProtected, j);
      assert false;
    }
  }

  lemma {:induction false} NewServersFrom(items: seq<ImportItem>, s: Profile) returns (j: nat)
    requires s in NewServers(items)
    ensures j < |items| && items[j].status == New && items[j].server == Some(s)
  {
    var n := |items| - 1;
    if items[n].status == New && items[n].server == Some(s) {
      j := n;
    } else {
      j := NewServersFrom(items[..n], s);
    }
  }

  // ----- applying a plan -----

  datatype ImportAction = Ignore | Import_ | Overwrite

  datatype DraftError = InvalidImportPlan | InvalidImportAction(row: string)

  /** The login for which a password was saved; ports that are no number count as the same. */
  predicate SamePasswordTarget(s: Profile, t: Profile) {
    && s.source == t.source && s.hostAlias == t.hostAlias && s.host == t.host && s.user == t.user
    && PortNumber(s.port) == PortNumber(t.port) && s.auth == t.auth && s.connectionMethod == t.connectionMethod
  }

  predicate SameKeyTarget(s: Profile, t: Profile) {
    s.auth == t.auth && s.keyFile == t.keyFile && s.connectionMethod == t.connectionMethod
  }

  /** What an SSH import leaves of the existing connection. */
  function MergeImported(existing: Profile, imported: Profile): Profile {
    var merged := existing.(name := imported.name, source := imported.source, hostAlias := imported.hostAlias,
                            host := imported.host, user := imported.user, port := imported.port,
                            auth := imported.auth, keyFile := imported.keyFile,
                            connectionMethod := imported.connectionMethod, ssh := imported.ssh);
    var dropPassword := merged.auth != Password || !SamePasswordTarget(existing, merged);
    var dropKeyPass := merged.auth != Key || !SameKeyTarget(existing, merged);
    merged.(password := if dropPassword then NoSecret else merged.password,
            keyPass := if dropKeyPass then NoSecret else merged.keyPass)
  }

  function WithId(existing: seq<Profile>, id: string): (r: Option<Profile>)
    ensures r.Some? <==> id in Ids(existing)
    ensures r.Some? ==> r.value in existing && r.value.id == id
  {
    FindFirst(existing, (k: Profile) => k.id == id)
  }

  /** Why an action is refused, if it is. */
  function Refusal(item: ImportItem, action: ImportAction, existing: seq<Profile>): Option<DraftError> {
    match action
    case Ignore => None
    case Import_ => if item.status == New then None else Some(InvalidImportAction(item.row))
    case Overwrite =>
      if !item.canOverwrite then Some(InvalidImportAction(item.row))
      else if item.server.None? || item.matchedId.None? || item.matchedId.value !in Ids(existing)
          then Some(InvalidImportPlan)
      else None
  }

  /** An action that is not refused and takes something from its item. */
  predicate Takes(item: ImportItem, action: ImportAction) {
    action != Ignore && item.server.Some?
  }

  /** What it takes: the new connection itself, or the existing one with its changes. */
  function Taken(item: ImportItem, action: ImportAction, full: bool, existing: seq<Profile>): Profile
    requires Takes(item, action) && Refusal(item, action, existing).None?
  {
    if action == Import_ then item.server.value
    else
      var replaced := WithId(existing, item.matchedId.value).value;
      if full then item.server.value.(id := replaced.id) else MergeImported(replaced, item.server.value)
  }

  /** The results come from the items at `origins`, in order, and from all that take something. */
  ghost predicate Selection(selected: seq<Profile>, origins: seq<nat>, items: seq<ImportItem>,
                            actions: seq<ImportAction>, full: bool, existing: seq<Profile>)
    requires |actions| == |items|
  {
    && |selected| == |origins| && Increasing(origins)
    && (forall i :: 0 <= i < |items| ==> Refusal(items[i], actions[i], existing).None?)
    && (forall p :: 0 <= p < |origins| ==>
          && origins[p] < |items| && Takes(items[origins[p]], actions[origins[p]])
          && selected[p] == Taken(items[origins[p]], actions[origins[p]], full, existing))
    && (forall i :: 0 <= i < |items| && Takes(items[i], actions[i]) ==> i in origins)
  }

  predicate Increasing(origins: seq<nat>) {
    forall p, q :: 0 <= p < q < |origins| ==> origins[p] < origins[q]
  }

  /** The first refused action decides the error; otherwise every action has its effect, in order. */
  method Apply(items: seq<ImportItem>, fullConnections: bool, actions: seq<ImportAction>, existing: seq<Profile>)
    returns (r: Result<seq<Profile>, DraftError>, ghost origins: seq<nat>)
    ensures r.Ok? ==> |actions| == |items| && Selection(r.value, origins, items, actions, fullConnections, existing)
    ensures r.Err? && |actions| != |items| ==> r.error == InvalidImportPlan
    ensures r.Err? && |actions| == |items| ==>
              exists i :: 0 <= i < |items| && Refusal(items[i], actions[i], existing) == Some(r.error)
                          && forall j :: 0 <= j < i ==> Refusal(items[j], actions[j], existing).None?
  {
    origins := [];
    if |actions| != |items| { return Err(InvalidImportPlan), []; }
    var selected: seq<Profile> := [];
    for i := 0 to |items|
      invariant Selection(selected, origins, items[..i], actions[..i], fullConnections, existing)
    {
      var one := ApplyOne(items[i], fullConnections, actions[i], existing);
      if one.Err? {
        assert forall j :: 0 <= j < i ==> Refusal(items[..i][j], actions[..i][j], existing).None?;
        return Err(one.error), origins;
      }
      SelectNext(selected, origins, items, actions, i, fullConnections, existing);
      selected := selected + one.value;
      if Takes(items[i], actions[i]) { origins := origins + [i]; }
    }
    assert items[..|items|] == items && actions[..|items|] == actions;
    r := Ok(selected);
  }

  lemma SelectNext(selected: seq<Profile>, origins: seq<nat>, items: seq<ImportItem>, actions: seq<ImportAction>,
                   i: nat, full: bool, existing: seq<Profile>)
    requires i < |items| == |actions| && Selection(selected, origins, items[..i], actions[..i], full, existing)
    requires Refusal(items[i], actions[i], existing).None?
    ensures Takes(items[i], actions[i]) ==>
              Selection(selected + [Taken(items[i], actions[i], full, existing)], origins + [i],
                        items[..i + 1], actions[..i + 1], full, existing)
    ensures !Takes(items[i], actions[i]) ==>
              Selection(selected, origins, items[..i + 1], actions[..i + 1], full, existing)
  {
    assert forall p :: 0 <= p < |origins| ==> items[..i + 1][origins[p]] == items[..i][origins[p]];
    forall j | 0 <= j < i ensures Refusal(items[j], actions[j], existing).None? {
      assert Refusal(items[..i][j], actions[..i][j], existing).None?;
    }
    forall j | 0 <= j < i && Takes(items[j], actions[j]) ensures j in origins {
      assert Takes(items[..i][j], actions[..i][j]);
    }
  }

  method ApplyOne(item: ImportItem, fullConnections: bool, action: ImportAction, existing: seq<Profile>)
    returns (r: Result<seq<Profile>, DraftError>)
    ensures r.Err? ==> Refusal(item, action, existing) == Some(r.error)
    ensures r.Ok? ==> Refusal(item, action, existing).None?
    ensures r.Ok? ==> r.value == if Takes(item, action) then [Taken(item, action, fullConnections, existing)] else []
  {
    match action {
      case Ignore => r := Ok([]);
      case Import_ =>
        if item.status != New { return Err(InvalidImportAction(item.row)); }
        r := Ok(if item.server.Some? then [item.server.value] else []);
      case Overwrite =>
        if !item.canOverwrite { return Err(InvalidImportAction(item.row)); }
        if item.server.None? || item.matchedId.None? { return Err(InvalidImportPlan); }
        var found := WithId(existing, item.matchedId.value);
        if found.None? { return Err(InvalidImportPlan); }
        var server := item.server.value;
        r := Ok([if fullConnections then server.(id := found.value.id) else MergeImported(found.value, server)]);
    }
  }

  /** Applied to the list it was planned for, a plan refuses exactly the actions it does not offer. */
  lemma PlanRefusals(full: bool, items: seq<ImportItem>, action: ImportAction, existing: seq<Profile>,
                     isProtected: set<string>, i: nat)
    requires Plan(full, items, existing, isProtected) && i < |items|
    ensures Refusal(items[i], action, existing).Some?
            <==> (action == Import_ && items[i].status != New) || (action == Overwrite && !items[i].canOverwrite)
  {
    assert Planned(full, items[i], KnownAt(items, i, existing), existing, isProtected);
  }

  /** What a plan takes is new, or replaces an unprotected connection that the import repeats. */
  lemma AppliedPlan(full: bool, items: seq<ImportItem>, actions: seq<ImportAction>, existing: seq<Profile>,
                    isProtected: set<string>, i: nat)
    requires Plan(full, items, existing, isProtected) && |actions| == |items| && i < |items|
    requires Takes(items[i], actions[i]) && Refusal(items[i], actions[i], existing).None?
    ensures var s := Taken(items[i], actions[i], full, existing);
      if actions[i] == Import_ then
        s.id !in Ids(existing) && forall k <- existing :: Repetition(full, s, k) == New
      else
        && s.id !in isProtected
        && exists k <- existing :: k.id == s.id && Repetition(full, items[i].server.value, k) != New
  {
    if actions[i] == Import_ {
      NewItemsAreFresh(full, items, existing, isProtected, i);
    } else {
      OverwriteRepeats(full, items, existing, isProtected, i);
    }
  }

  /** An overwrite keeps a password exactly when it was saved for the same login, and a passphrase
      exactly when it was saved for the same key file. */
  lemma OverwriteKeepsSecrets(item: ImportItem, existing: seq<Profile>)
    requires item.server.Some? && Refusal(item, Overwrite, existing).None?
    ensures var (k, s) := (WithId(existing, item.matchedId.value).value, item.server.value);
      var taken := Taken(item, Overwrite, false, existing);
      && (taken.password == k.password <==> k.password == NoSecret || (k.auth == Password && SamePasswordTarget(k, s)))
      && (taken.keyPass == k.keyPass <==> k.keyPass == NoSecret || (k.auth == Key && SameKeyTarget(k, s)))
      && taken.id == k.id && taken.remotePath == k.remotePath && taken.mountpoint == k.mountpoint
      && taken.kept == k.kept
      && ImportTarget(taken) == ImportTarget(s)
  {
  }

  /** No secret reaches a login or a key that it was not saved for: whatever secret an imported SSH
      host has after the plan is applied belonged to the connection it replaces, for the same login
      or the same key file. */
  lemma SecretsStayBound(items: seq<ImportItem>, imports: seq<Import>, actions: seq<ImportAction>,
                         existing: seq<Profile>, i: nat)
    requires |imports| == |items| == |actions| && i < |items| && PlannedFrom(imports[i], items[i])
    requires imports[i].server.Ok? ==>
               imports[i].server.value.password == NoSecret && imports[i].server.value.keyPass == NoSecret
    requires Takes(items[i], actions[i]) && Refusal(items[i], actions[i], existing).None?
    ensures var s := Taken(items[i], actions[i], false, existing);
      && (s.password != NoSecret ==>
            && s.auth == Password
            && exists k <- existing :: k.id == s.id && k.password == s.password && SamePasswordTarget(k, s))
      && (s.keyPass != NoSecret ==>
            s.auth == Key && exists k <- existing :: k.id == s.id && k.keyPass == s.keyPass && SameKeyTarget(k, s))
  {
    if actions[i] == Overwrite {
      var k := WithId(existing, items[i].matchedId.value).value;
      assert k in existing;
    }
  }
}
