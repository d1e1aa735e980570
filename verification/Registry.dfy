/** The saved connections: validation of one connection's mounts against the others, and what
    every sequence of validated changes keeps. */
module Registry {
  import opened Common
  import opened Process
  import opened Text
  import opened Mountpoints
  import opened ConnectionKeys

  datatype Mapping = Mapping(id: string, remotePath: string, mountpoint: string)

  datatype Server = Server(id: string, host: string, user: string, port: string,
                           primaryMount: bool, remotePath: string, mountpoint: string, mounts: seq<Mapping>)

  function Fingerprint(s: Server): ((string, string, string), string, string) {
    TargetKey(s.host, s.user, s.port, s.remotePath, s.mountpoint)
  }

  datatype Target = Target(id: string, remotePath: string, mountpoint: string)

  const MAPPING_INFIX: string := "--mount-"

  function MappingId(server: Server, m: Mapping): string {
    server.id + MAPPING_INFIX + m.id
  }

  function MappingTargets(server: Server): seq<Target> {
    seq(|server.mounts|, i requires 0 <= i < |server.mounts| =>
      Target(MappingId(server, server.mounts[i]), server.mounts[i].remotePath, server.mounts[i].mountpoint))
  }

  function MountTargets(server: Server): seq<Target> {
    (if server.primaryMount then [Target(server.id, server.remotePath, server.mountpoint)] else [])
        + MappingTargets(server)
  }

  // ----- the key of an explicit local path -----

  /** `.` is dropped; `..` takes the part before it away, unless that is empty or missing. */
  function Stack(parts: seq<string>): seq<string> {
    if parts == [] then []
    else
      var before := Stack(parts[..|parts| - 1]);
      var part := parts[|parts| - 1];
      if part == "." then before
      else if part == ".." && before != [] && before[|before| - 1] != "" then before[..|before| - 1]
      else before + [part]
  }

  function Normalised(key: string): string {
    Join(Stack(Split(key, '/')), "/")
  }

  predicate WindowsValue(value: string, windows: bool) {
    windows || WindowsDrive(value).Some? || (|value| >= 3 && value[1] == ':')
  }

  /** The key under which an explicit mountpoint is compared; nothing for automatic ones. */
  function ExplicitKey(mountpoint: string, home: string, windows: bool): Option<string> {
    var value := Trim(mountpoint);
    if value == "" || EqualsAuto(value) || value == HOME_MOUNTPOINT_VALUE then None
    else Some(Normalised(PathKey(ExpandHome(value, home), WindowsValue(value, windows))))
  }

  /** Nothing is left for the stack to take away. */
  predicate Reduced(parts: seq<string>) {
    forall i :: 0 <= i < |parts| ==> parts[i] != "." && (parts[i] == ".." ==> i == 0 || parts[i - 1] == "")
  }

  lemma {:induction false} StackReduces(parts: seq<string>)
    ensures Reduced(Stack(parts)) && forall p <- Stack(parts) :: p in parts
  {
    if parts != [] {
      StackReduces(parts[..|parts| - 1]);
      assert forall p <- parts[..|parts| - 1] :: p in parts;
    }
  }

  lemma {:induction false} StackKeepsReduced(parts: seq<string>)
    requires Reduced(parts)
    ensures Stack(parts) == parts
  {
    if parts != [] {
      var before := parts[..|parts| - 1];
      assert Reduced(before);
      StackKeepsReduced(before);
      StackPushes(before, parts[|parts| - 1]);
      assert parts == before + [parts[|parts| - 1]];
    }
  }

  lemma StackPushes(before: seq<string>, part: string)
    requires Stack(before) == before && part != "."
    requires part == ".." ==> before == [] || before[|before| - 1] == ""
    ensures Stack(before + [part]) == before + [part]
  {
    assert (before + [part])[..|before|] == before;
  }

  /** Normalising twice is normalising once. */
  lemma NormalisedIdempotent(key: string)
    ensures Normalised(Normalised(key)) == Normalised(key)
  {
    var parts := Split(key, '/');
    var stack := Stack(parts);
    JoinSplit(key, '/');
    StackReduces(parts);
    if stack == [] {
      assert Split("", '/') == [""];
      assert Stack([""]) == [""] by { assert [""][..0] == []; }
    } else {
      SplitJoin(stack, '/');
      StackKeepsReduced(stack);
    }
  }

  // ----- validation -----

  predicate HexDigit(c: char) {
    '0' <= c <= '9' || 'a' <= c <= 'f' || 'A' <= c <= 'F'
  }

  predicate PlainPath(s: string) {
    forall c <- s :: !Control(c)
  }

  predicate NormalMountpoint(mountpoint: string, windows: bool) {
    var value := Trim(mountpoint);
    || value == "" || EqualsAuto(value) || value == HOME_MOUNTPOINT_VALUE || WindowsDrive(value).Some?
    || "~/" <= value || "~\\" <= value || IsAbsolute(value, windows) || IsAbsolute(value, true)
  }

  predicate FineMapping(m: Mapping, windows: bool) {
    && |m.id| == 32 && (forall c <- m.id :: HexDigit(c))
    && PlainPath(m.remotePath) && PlainPath(m.mountpoint) && NormalMountpoint(m.mountpoint, windows)
  }

  predicate FineTarget(t: Target, windows: bool) {
    PlainPath(t.remotePath) && PlainPath(t.mountpoint) && NormalMountpoint(t.mountpoint, windows)
  }

  /** What a target claims: its identity, and its local place when that is explicit. */
  datatype Claim = Claim(id: string, key: Option<string>)

  function ClaimOf(t: Target, home: string, windows: bool): Claim {
    Claim(t.id, ExplicitKey(t.mountpoint, home, windows))
  }

  function Claims(targets: seq<Target>, home: string, windows: bool): seq<Claim> {
    seq(|targets|, i requires 0 <= i < |targets| => ClaimOf(targets[i], home, windows))
  }

  predicate SameKey(a: Claim, b: Claim) {
    a.key.Some? && a.key == b.key
  }

  /** Two claims that cannot both be granted. */
  predicate Conflict(a: Claim, b: Claim) {
    a.id == b.id || SameKey(a, b)
  }

  /** The targets of all the other connections. */
  function OtherTargets(server: Server, others: seq<Server>): seq<Target> {
    if others == [] then []
    else (if others[0].id != server.id then MountTargets(others[0]) else []) + OtherTargets(server, others[1..])
  }

  ghost predicate ValidMappings(server: Server, others: seq<Server>, home: string, windows: bool) {
    && 1 <= |server.mounts| + (if server.primaryMount then 1 else 0) <= 64
    && (forall m <- server.mounts :: FineMapping(m, windows))
    && (forall i, j :: 0 <= i < j < |server.mounts| ==> server.mounts[i].id != server.mounts[j].id)
    && (forall t <- MountTargets(server) :: FineTarget(t, windows))
    && ClaimsFine(Claims(MountTargets(server), home, windows), Claims(OtherTargets(server, others), home, windows))
  }

  ghost predicate ClaimsFine(claims: seq<Claim>, others: seq<Claim>) {
    && (forall i, j :: 0 <= i < j < |claims| ==> !SameKey(claims[i], claims[j]))
    && (forall i, j :: 0 <= i < |claims| && 0 <= j < |others| ==> !Conflict(claims[i], others[j]))
  }

  method ValidateMappingIds(mounts: seq<Mapping>, windows: bool) returns (ok: bool)
    ensures ok <==>
            && (forall m <- mounts :: FineMapping(m, windows))
            && (forall i, j :: 0 <= i < j < |mounts| ==> mounts[i].id != mounts[j].id)
  {
    var ids: set<string> := {};
    for i := 0 to |mounts|
      invariant ids == set k | 0 <= k < i :: mounts[k].id
      invariant forall k :: 0 <= k < i ==> FineMapping(mounts[k], windows)
      invariant forall j, k :: 0 <= j < k < i ==> mounts[j].id != mounts[k].id
    {
      if mounts[i].id in ids || !FineMapping(mounts[i], windows) { return false; }
      ids := ids + {mounts[i].id};
    }
    ok := true;
  }

  method ConflictsWithAny(claim: Claim, others: seq<Claim>) returns (r: bool)
    ensures r <==> exists j :: 0 <= j < |others| && Conflict(claim, others[j])
  {
    for j := 0 to |others|
      invariant forall k :: 0 <= k < j ==> !Conflict(claim, others[k])
    {
      if Conflict(claim, others[j]) { return true; }
    }
    r := false;
  }

  method ValidateTargets(targets: seq<Target>, claims: seq<Claim>, others: seq<Claim>, windows: bool) returns (ok: bool)
    requires |claims| == |targets|
    ensures ok <==> (forall t <- targets :: FineTarget(t, windows)) && ClaimsFine(claims, others)
  {
    var local: set<string> := {};
    for i := 0 to |targets|
      invariant forall k :: 0 <= k < i && claims[k].key.Some? ==> claims[k].key.value in local
      invariant forall key <- local :: exists k :: 0 <= k < i && claims[k].key == Some(key)
      invariant forall k :: 0 <= k < i ==> FineTarget(targets[k], windows)
      invariant ClaimsFine(claims[..i], others)
    {
      if !FineTarget(targets[i], windows) { return false; }
      var conflict := ConflictsWithAny(claims[i], others);
      if conflict { return false; }
      var key := claims[i].key;
      if key.Some? {
        if key.value in local {
          ghost var k :| 0 <= k < i && claims[k].key == key;
          assert SameKey(claims[k], claims[i]);
          return false;
        }
        local := local + {key.value};
      }
    }
    assert claims[..|targets|] == claims;
    ok := true;
  }

  method ValidateMountMappings(server: Server, others: seq<Server>, home: string, windows: bool) returns (ok: bool)
    ensures ok <==> ValidMappings(server, others, home, windows)
  {
    if !(1 <= |server.mounts| + (if server.primaryMount then 1 else 0) <= 64) { return false; }
    ok := ValidateMappingIds(server.mounts, windows);
    if ok {
      var targets := MountTargets(server);
      ok := ValidateTargets(targets, Claims(targets, home, windows),
                            Claims(OtherTargets(server, others), home, windows), windows);
    }
  }

  // ----- what validated changes keep -----

  function ClaimsOf(server: Server, home: string, windows: bool): seq<Claim> {
    Claims(MountTargets(server), home, windows)
  }

  function AllClaims(servers: seq<Server>, home: string, windows: bool): seq<Claim> {
    if servers == [] then [] else ClaimsOf(servers[0], home, windows) + AllClaims(servers[1..], home, windows)
  }

  /** No two targets of all the connections claim the same identity or the same explicit place. */
  ghost predicate Granted(claims: seq<Claim>) {
    forall i, j :: 0 <= i < j < |claims| ==> !Conflict(claims[i], claims[j])
  }

  /** Every claim of one list fits every claim of the other. */
  ghost predicate Apart(a: seq<Claim>, b: seq<Claim>) {
    forall i, j :: 0 <= i < |a| && 0 <= j < |b| ==> !Conflict(a[i], b[j])
  }

  lemma GrantedAppend(a: seq<Claim>, b: seq<Claim>)
    ensures Granted(a + b) <==> Granted(a) && Granted(b) && Apart(a, b)
  {
    var all := a + b;
    if Granted(all) {
      forall i, j | 0 <= i < j < |b| ensures !Conflict(b[i], b[j]) {
        assert b[i] == all[|a| + i] && b[j] == all[|a| + j];
      }
      forall i, j | 0 <= i < |a| && 0 <= j < |b| ensures !Conflict(a[i], b[j]) {
        assert a[i] == all[i] && b[j] == all[|a| + j];
      }
      forall i, j | 0 <= i < j < |a| ensures !Conflict(a[i], a[j]) {
        assert a[i] == all[i] && a[j] == all[j];
      }
    }
  }

  lemma ApartAppend(a: seq<Claim>, b: seq<Claim>, c: seq<Claim>)
    ensures Apart(a, b + c) <==> Apart(a, b) && Apart(a, c)
    ensures Apart(b + c, a) <==> Apart(b, a) && Apart(c, a)
  {
    if Apart(a, b + c) {
      forall i, j | 0 <= i < |a| && 0 <= j < |c| ensures !Conflict(a[i], c[j]) {
        assert c[j] == (b + c)[|b| + j];
      }
      forall i, j | 0 <= i < |a| && 0 <= j < |b| ensures !Conflict(a[i], b[j]) {
        assert b[j] == (b + c)[j];
      }
    }
    if Apart(b + c, a) {
      forall i, j | 0 <= i < |c| && 0 <= j < |a| ensures !Conflict(c[i], a[j]) {
        assert c[i] == (b + c)[|b| + i];
      }
      forall i, j | 0 <= i < |b| && 0 <= j < |a| ensures !Conflict(b[i], a[j]) {
        assert b[i] == (b + c)[i];
      }
    }
  }

  lemma ApartSymmetric(a: seq<Claim>, b: seq<Claim>)
    ensures Apart(a, b) <==> Apart(b, a)
  {
  }

  lemma {:induction false} AllClaimsAppend(a: seq<Server>, b: seq<Server>, home: string, windows: bool)
    ensures AllClaims(a + b, home, windows) == AllClaims(a, home, windows) + AllClaims(b, home, windows)
  {
    if a == [] {
      assert a + b == b;
    } else {
      assert (a + b)[1..] == a[1..] + b;
      AllClaimsAppend(a[1..], b, home, windows);
    }
  }

  /** Where the connection to be replaced is: the first with the same id, or the end. */
  function Place(servers: seq<Server>, id: string): (i: nat)
    ensures i <= |servers| && (i < |servers| ==> servers[i].id == id) && forall k :: 0 <= k < i ==> servers[k].id != id
  {
    if servers == [] || servers[0].id == id then 0 else 1 + Place(servers[1..], id)
  }

  function Upserted(servers: seq<Server>, server: Server): seq<Server> {
    var i := Place(servers, server.id);
    servers[..i] + [server] + if i < |servers| then servers[i + 1..] else []
  }

  method FindPlace(servers: seq<Server>, id: string) returns (i: nat)
    ensures i == Place(servers, id)
  {
    i := 0;
    while i < |servers| && servers[i].id != id
      invariant i <= |servers| && forall k :: 0 <= k < i ==> servers[k].id != id
    {
      i := i + 1;
    }
    var p := Place(servers, id);
    assert !(p < i) && !(i < p);
  }

  predicate SameTarget(s: Server, t: Server) {
    s.id != t.id && Fingerprint(s) == Fingerprint(t)
  }

  /** No connection with another id has the same target. */
  predicate NewTarget(server: Server, servers: seq<Server>) {
    forall s <- servers :: !SameTarget(s, server)
  }

  ghost predicate Storable(server: Server, servers: seq<Server>, home: string, windows: bool) {
    ValidMappings(server, servers, home, windows) && NewTarget(server, servers)
  }

  method RejectDuplicateTarget(servers: seq<Server>, candidate: Server) returns (ok: bool)
    ensures ok <==> NewTarget(candidate, servers)
  {
    for i := 0 to |servers|
      invariant NewTarget(candidate, servers[..i])
    {
      assert servers[i] in servers && servers[..i + 1] == servers[..i] + [servers[i]];
      if SameTarget(servers[i], candidate) { return false; }
    }
    assert servers[..|servers|] == servers;
    ok := true;
  }

  /** Replaces the connection with the same id, or adds a new one, if it validates. */
  method Upsert(servers: seq<Server>, server: Server, home: string, windows: bool) returns (r: Option<seq<Server>>)
    ensures r.Some? <==> Storable(server, servers, home, windows)
    ensures r.Some? ==> r.value == Upserted(servers, server)
  {
    var ok := ValidateMountMappings(server, servers, home, windows);
    if !ok { return None; }
    ok := RejectDuplicateTarget(servers, server);
    if !ok { return None; }
    var i := FindPlace(servers, server.id);
    if i < |servers| {
      assert servers[i := server] == servers[..i] + [server] + servers[i + 1..];
      r := Some(servers[i := server]);
    } else {
      assert servers[..i] == servers && servers + [server] == servers[..i] + [server] + [];
      r := Some(servers + [server]);
    }
  }

  lemma MappingIdsDistinct(server: Server, i: nat, j: nat)
    requires i < j < |server.mounts| && server.mounts[i].id != server.mounts[j].id
    ensures MappingId(server, server.mounts[i]) != MappingId(server, server.mounts[j])
  {
    var n := |server.id + MAPPING_INFIX|;
    assert MappingId(server, server.mounts[i])[n..] == server.mounts[i].id;
    assert MappingId(server, server.mounts[j])[n..] == server.mounts[j].id;
  }

  lemma OwnIdsDiffer(server: Server, i: nat, j: nat)
    requires forall k, l :: 0 <= k < l < |server.mounts| ==> server.mounts[k].id != server.mounts[l].id
    requires i < j < |MountTargets(server)|
    ensures MountTargets(server)[i].id != MountTargets(server)[j].id
  {
    var p := if server.primaryMount then 1 else 0;
    var targets := MountTargets(server);
    assert targets[j].id == MappingId(server, server.mounts[j - p]);
    if i < p {
      assert targets[i].id == server.id && |targets[j].id| > |server.id|;
    } else {
      assert targets[i].id == MappingId(server, server.mounts[i - p]);
      MappingIdsDistinct(server, i - p, j - p);
    }
  }

  /** A validated connection's own targets do not conflict. */
  lemma OwnClaimsGranted(server: Server, others: seq<Server>, home: string, windows: bool)
    requires ValidMappings(server, others, home, windows)
    ensures Granted(ClaimsOf(server, home, windows))
  {
    var claims := ClaimsOf(server, home, windows);
    forall i, j | 0 <= i < j < |claims| ensures !Conflict(claims[i], claims[j]) {
      OwnIdsDiffer(server, i, j);
    }
  }

  ghost predicate ApartEach(claims: seq<Claim>, servers: seq<Server>, home: string, windows: bool) {
    forall s <- servers :: Apart(claims, ClaimsOf(s, home, windows))
  }

  lemma ApartEachCons(claims: seq<Claim>, servers: seq<Server>, home: string, windows: bool)
    requires servers != []
    ensures ApartEach(claims, servers, home, windows)
            <==> Apart(claims, ClaimsOf(servers[0], home, windows)) && ApartEach(claims, servers[1..], home, windows)
  {
    assert servers == [servers[0]] + servers[1..];
  }

  lemma {:induction false} ApartAll(claims: seq<Claim>, servers: seq<Server>, home: string, windows: bool)
    ensures Apart(claims, AllClaims(servers, home, windows)) <==> ApartEach(claims, servers, home, windows)
  {
    if servers != [] {
      ApartAll(claims, servers[1..], home, windows);
      ApartAppend(claims, ClaimsOf(servers[0], home, windows), AllClaims(servers[1..], home, windows));
      ApartEachCons(claims, servers, home, windows);
    }
  }

  lemma ClaimsAppend(a: seq<Target>, b: seq<Target>, home: string, windows: bool)
    ensures Claims(a + b, home, windows) == Claims(a, home, windows) + Claims(b, home, windows)
  {
  }

  /** The connections with another id. */
  function Others(server: Server, servers: seq<Server>): (r: seq<Server>)
    ensures forall s :: s in r <==> s in servers && s.id != server.id
  {
    if servers == [] then []
    else (if servers[0].id != server.id then [servers[0]] else []) + Others(server, servers[1..])
  }

  lemma {:induction false} OtherClaims(server: Server, servers: seq<Server>, home: string, windows: bool)
    ensures Claims(OtherTargets(server, servers), home, windows) == AllClaims(Others(server, servers), home, windows)
  {
    if servers != [] {
      OtherClaims(server, servers[1..], home, windows);
      var rest := Others(server, servers[1..]);
      if servers[0].id != server.id {
        ClaimsAppend(MountTargets(servers[0]), OtherTargets(server, servers[1..]), home, windows);
        assert ([servers[0]] + rest)[1..] == rest;
      } else {
        assert [] + rest == rest && [] + OtherTargets(server, servers[1..]) == OtherTargets(server, servers[1..]);
      }
    }
  }

  lemma ApartOthers(claims: seq<Claim>, server: Server, others: seq<Server>, home: string, windows: bool)
    ensures Apart(claims, Claims(OtherTargets(server, others), home, windows))
            <==> ApartEach(claims, Others(server, others), home, windows)
  {
    OtherClaims(server, others, home, windows);
    ApartAll(claims, Others(server, others), home, windows);
  }

  /** The connections after the replaced one that share its id. */
  ghost predicate Shadowed(servers: seq<Server>, server: Server, s: Server) {
    var i := Place(servers, server.id);
    i < |servers| && s in servers[i + 1..] && s.id == server.id
  }

  /** A validated change keeps all targets apart exactly when it fits the connections that are
      hidden from the validation because they share its id. */
  lemma UpsertKeepsGranted(servers: seq<Server>, server: Server, home: string, windows: bool)
    requires ValidMappings(server, servers, home, windows) && Granted(AllClaims(servers, home, windows))
    ensures Granted(AllClaims(Upserted(servers, server), home, windows))
            <==> forall s :: Shadowed(servers, server, s) ==>
                Apart(ClaimsOf(server, home, windows), ClaimsOf(s, home, windows))
  {
    var i := Place(servers, server.id);
    var before := servers[..i];
    var after := if i < |servers| then servers[i + 1..] else [];
    var (a, c, b) := (AllClaims(before, home, windows), ClaimsOf(server, home, windows),
                      AllClaims(after, home, windows));
    KeptPart(servers, i, after, home, windows);
    OwnClaimsGranted(server, servers, home, windows);
    Replaced(before, server, after, home, windows);
    ApartOthers(c, server, servers, home, windows);
    ApartAll(c, before, home, windows);
    ApartAll(c, after, home, windows);
    ApartSymmetric(a, c);
    forall s | s in before ensures s in servers && s.id != server.id {
    }
    assert forall s <- after :: s in servers;
  }

  lemma KeptPart(servers: seq<Server>, i: nat, after: seq<Server>, home: string, windows: bool)
    requires i <= |servers| && after == (if i < |servers| then servers[i + 1..] else [])
    requires Granted(AllClaims(servers, home, windows))
    ensures Granted(AllClaims(servers[..i], home, windows)) && Granted(AllClaims(after, home, windows))
    ensures Apart(AllClaims(servers[..i], home, windows), AllClaims(after, home, windows))
  {
    assert servers == servers[..i] + servers[i..];
    AllClaimsAppend(servers[..i], servers[i..], home, windows);
    GrantedAppend(AllClaims(servers[..i], home, windows), AllClaims(servers[i..], home, windows));
    if i < |servers| {
      var one := ClaimsOf(servers[i], home, windows);
      assert servers[i..][1..] == after;
      GrantedAppend(one, AllClaims(after, home, windows));
      ApartAppend(AllClaims(servers[..i], home, windows), one, AllClaims(after, home, windows));
    }
  }

  lemma Replaced(before: seq<Server>, server: Server, after: seq<Server>, home: string, windows: bool)
    ensures var (a, c, b) := (AllClaims(before, home, windows), ClaimsOf(server, home, windows),
                              AllClaims(after, home, windows));
      Granted(AllClaims(before + [server] + after, home, windows))
      <==> Granted(a) && Granted(c) && Granted(b) && Apart(a, c) && Apart(a, b) && Apart(c, b)
  {
    var (a, c, b) := (AllClaims(before, home, windows), ClaimsOf(server, home, windows),
                      AllClaims(after, home, windows));
    assert before + [server] + after == before + ([server] + after);
    AllClaimsAppend(before, [server] + after, home, windows);
    assert ([server] + after)[1..] == after;
    GrantedAppend(a, c + b);
    GrantedAppend(c, b);
    ApartAppend(a, c, b);
  }

  // ----- shared ids -----

  predicate DistinctIds(servers: seq<Server>) {
    forall i, j :: 0 <= i < j < |servers| ==> servers[i].id != servers[j].id
  }

  lemma UpsertKeepsIds(servers: seq<Server>, server: Server)
    requires DistinctIds(servers)
    ensures DistinctIds(Upserted(servers, server)) && forall s :: !Shadowed(servers, server, s)
  {
    var i := Place(servers, server.id);
    if i < |servers| {
      assert Upserted(servers, server) == servers[i := server];
      forall s ensures !Shadowed(servers, server, s) {
        if s in servers[i + 1..] {
          var k :| 0 <= k < |servers[i + 1..]| && servers[i + 1..][k] == s;
          assert servers[i + 1 + k] == s;
        }
      }
    } else {
      assert Upserted(servers, server) == servers + [server];
    }
  }

  /** Distinct targets alone are not enough: two connections without a primary mount can share an
      id, and then a change that validates can repeat the target of the hidden one. */
  lemma SharedIdHidesConflict(x: string, y: string, home: string, windows: bool)
    requires x != y && |x| == |y| == 32 && (forall c <- x :: HexDigit(c)) && forall c <- y :: HexDigit(c)
    ensures var first := Server("a", "h", "u", "22", false, "", "", [Mapping(x, "", "")]);
      var second := Server("a", "h", "u", "22", false, "", "", [Mapping(y, "", "")]);
      && Granted(AllClaims([first, second], home, windows))
      && Storable(second, [first, second], home, windows)
      && !Granted(AllClaims(Upserted([first, second], second), home, windows))
  {
    var first := Server("a", "h", "u", "22", false, "", "", [Mapping(x, "", "")]);
    var second := Server("a", "h", "u", "22", false, "", "", [Mapping(y, "", "")]);
    assert Trim("") == "";
    var (a, b) := (ClaimsOf(first, home, windows), ClaimsOf(second, home, windows));
    assert a == [Claim(MappingId(first, first.mounts[0]), None)]
        && b == [Claim(MappingId(second, second.mounts[0]), None)];
    TwoMappingIds(first, second);
    AllOfTwo(first, second, home, windows);
    assert Place([first, second], "a") == 0;
    assert Upserted([first, second], second) == [second, second];
    AllOfTwo(second, second, home, windows);
    assert Conflict(b[0], b[0]);
    NoOthers(second, first);
  }

  lemma NoOthers(server: Server, first: Server)
    requires first.id == server.id
    ensures OtherTargets(server, [first, server]) == []
  {
    assert [first, server][1..] == [server] && OtherTargets(server, [server]) == [];
  }

  lemma TwoMappingIds(first: Server, second: Server)
    requires first.id == second.id && |first.mounts| == |second.mounts| == 1
             && first.mounts[0].id != second.mounts[0].id
    ensures MappingId(first, first.mounts[0]) != MappingId(second, second.mounts[0])
  {
    var n := |first.id + MAPPING_INFIX|;
    assert MappingId(first, first.mounts[0])[n..] == first.mounts[0].id;
    assert MappingId(second, second.mounts[0])[n..] == second.mounts[0].id;
  }

  lemma AllOfTwo(first: Server, second: Server, home: string, windows: bool)
    ensures AllClaims([first, second], home, windows)
         == ClaimsOf(first, home, windows) + ClaimsOf(second, home, windows)
    ensures Granted(AllClaims([first, second], home, windows)) ==>
              Apart(ClaimsOf(first, home, windows), ClaimsOf(second, home, windows))
  {
    assert [first, second][1..] == [second] && [second][1..] == [];
    assert AllClaims([second], home, windows) == ClaimsOf(second, home, windows) + [];
    GrantedAppend(ClaimsOf(first, home, windows), ClaimsOf(second, home, windows));
  }
}
