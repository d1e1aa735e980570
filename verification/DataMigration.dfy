/** Moving the old application directories into the new ones, without overwriting anything and
    so that a run which stopped anywhere can be run again. */
module DataMigration {
  import opened Common

  type Path = seq<string>

  datatype Node = File(content: string) | Dir | Link | Other

  type Tree = map<Path, Node>

  /** An old root and its new root, each a tree of nodes by relative path. */
  datatype Pair = Pair(src: Tree, dst: Tree, linkAbove: bool)

  function Get(tree: Tree, p: Path): Option<Node> {
    if p in tree then Some(tree[p]) else None
  }

  function Parent(p: Path): Path
    requires p != []
  {
    p[..|p| - 1]
  }

  predicate HasParent(tree: Tree, p: Path) {
    p == [] || Get(tree, Parent(p)) == Some(Dir)
  }

  ghost predicate WellFormed(tree: Tree) {
    forall p <- tree :: HasParent(tree, p)
  }

  lemma {:induction false} AncestorIn(tree: Tree, p: Path, n: nat)
    requires WellFormed(tree) && p in tree && n < |p|
    ensures Get(tree, p[..n]) == Some(Dir)
    decreases |p|
  {
    assert HasParent(tree, p);
    if n < |p| - 1 {
      AncestorIn(tree, Parent(p), n);
      assert Parent(p)[..n] == p[..n];
    }
  }

  // ----- what a migration may find on the way, and what it ends with -----

  predicate Fits(source: Node, destination: Option<Node>) {
    || (source.Dir? && (destination == None || destination == Some(Dir)))
    || (source.File? && destination == None)
  }

  /** Nothing below `p` is refused: no links or special files, no file over anything, and no
      directory over anything but a directory. */
  ghost predicate CompatibleBelow(pair: Pair, p: Path) {
    forall q <- pair.src :: p <= q ==> Fits(pair.src[q], Get(pair.dst, q))
  }

  ghost predicate Acceptable(pair: Pair) {
    !pair.linkAbove && CompatibleBelow(pair, [])
  }

  /** A node is where it was or where it goes: an original file is at exactly one of the two
      paths with its content, a source directory is still there or made at the destination, and
      everything else is as it was. */
  predicate MidAt(o: Pair, n: Pair, q: Path) {
    if q !in o.src then q !in n.src && Get(n.dst, q) == Get(o.dst, q)
    else
      match o.src[q]
      case File(_) =>
        || (Get(n.src, q) == Some(o.src[q]) && Get(n.dst, q) == Get(o.dst, q))
        || (Get(n.src, q) == None && Get(n.dst, q) == Some(o.src[q]))
      case Dir =>
        && (Get(n.src, q) == Some(Dir) || (Get(n.src, q) == None && Get(n.dst, q) == Some(Dir)))
        && (Get(n.dst, q) == Get(o.dst, q) || Get(n.dst, q) == Some(Dir))
      case _ => Get(n.src, q) == Get(o.src, q) && Get(n.dst, q) == Get(o.dst, q)
  }

  ghost predicate Mid(o: Pair, n: Pair) {
    n.linkAbove == o.linkAbove && forall q :: MidAt(o, n, q)
  }

  ghost predicate AllMid(start: seq<Pair>, now: seq<Pair>) {
    |now| == |start| && forall j :: 0 <= j < |start| ==> Mid(start[j], now[j])
  }

  /** The old destination united with the source. */
  function Union(pair: Pair): Tree {
    pair.dst + pair.src
  }

  function Merged(pair: Pair): Pair {
    pair.(src := map[], dst := Union(pair))
  }

  lemma MidTransitive(a: Pair, b: Pair, c: Pair)
    requires Acceptable(a) && Mid(a, b) && Mid(b, c)
    ensures Mid(a, c)
  {
    forall q ensures MidAt(a, c, q) {
      assert MidAt(a, b, q) && MidAt(b, c, q);
    }
  }

  /** Stopped anywhere, a migration can be run again, and is for the same result. */
  lemma MidResumable(a: Pair, b: Pair)
    requires Acceptable(a) && Mid(a, b)
    ensures Acceptable(b) && Merged(b) == Merged(a)
  {
    forall q | q in b.src ensures Fits(b.src[q], Get(b.dst, q)) {
      assert MidAt(a, b, q);
    }
    forall q ensures Get(Union(b), q) == Get(Union(a), q) {
      assert MidAt(a, b, q);
      assert q in a.src ==> Fits(a.src[q], Get(a.dst, q));
    }
    SameTree(Union(b), Union(a));
  }

  lemma SameTree(a: Tree, b: Tree)
    requires forall q :: Get(a, q) == Get(b, q)
    ensures a == b
  {
    forall q ensures q in a <==> q in b {
      assert Get(a, q) == Get(b, q);
    }
    forall q | q in a ensures a[q] == b[q] {
      assert Get(a, q) == Get(b, q);
    }
  }

  lemma MidMerged(pair: Pair)
    requires Acceptable(pair)
    ensures Mid(pair, pair) && Mid(pair, Merged(pair))
  {
    forall q ensures MidAt(pair, pair, q) && MidAt(pair, Merged(pair), q) {
      assert q in pair.src ==> Fits(pair.src[q], Get(pair.dst, q));
    }
  }

  // ----- the disk -----

  /** Since `began`, every state was between the start and the end of the migration. */
  ghost predicate Trail(start: seq<Pair>, history: seq<seq<Pair>>, began: seq<seq<Pair>>) {
    began <= history && forall k :: |began| <= k < |history| ==> AllMid(start, history[k])
  }

  /** The pairs of trees, every state they went through, and how often the file system failed. */
  class Disk {
    var pairs: seq<Pair>
    ghost var history: seq<seq<Pair>>
    ghost var faults: nat

    ghost predicate Valid()
      reads this
    {
      && 0 < |history| && history[|history| - 1] == pairs
      && forall j :: 0 <= j < |pairs| ==> WellFormed(pairs[j].src) && WellFormed(pairs[j].dst)
    }

    constructor (pairs: seq<Pair>)
      requires forall j :: 0 <= j < |pairs| ==> WellFormed(pairs[j].src) && WellFormed(pairs[j].dst)
      ensures Valid() && this.pairs == pairs && history == [pairs] && faults == 0
    {
      this.pairs, history, faults := pairs, [pairs], 0;
    }

    /** The node at a path; a link is refused. */
    method Inspect(i: nat, p: Path, source: bool) returns (r: Result<Option<Node>, ()>)
      requires Valid() && i < |pairs|
      modifies this`faults
      ensures Valid() && faults >= old(faults)
      ensures var found := Get(if source then pairs[i].src else pairs[i].dst, p);
        if r.Ok? then r.value == found && found != Some(Link) else found == Some(Link) || faults > old(faults)
    {
      var works: bool := *;
      var found := Get(if source then pairs[i].src else pairs[i].dst, p);
      if !works { faults := faults + 1; }
      r := if works && found != Some(Link) then Ok(found) else Err(());
    }

    method ReadDir(i: nat, p: Path) returns (r: Result<seq<string>, ()>)
      requires Valid() && i < |pairs| && Get(pairs[i].src, p) == Some(Dir)
      modifies this`faults
      ensures Valid() && faults >= old(faults)
      ensures r.Ok? ==> Lists(pairs[i].src, p, r.value)
      ensures r.Err? ==> faults > old(faults)
    {
      var names: seq<string> := *;
      if Lists(pairs[i].src, p, names) { return Ok(names); }
      faults := faults + 1;
      r := Err(());
    }

    method CreateDirAll(i: nat, p: Path) returns (ok: bool)
      requires Valid() && i < |pairs| && HasParent(pairs[i].dst, p)
      modifies this
      ensures Valid() && faults >= old(faults) && history == old(history) + [pairs]
      ensures pairs == old(pairs) || (p !in old(pairs[i].dst) && pairs == old(pairs)[i := MadeDir(old(pairs[i]), p)])
      ensures ok ==> Get(pairs[i].dst, p) == Some(Dir)
      ensures !ok ==> faults > old(faults) || Get(old(pairs[i].dst), p) !in {None, Some(Dir)}
    {
      var found := Get(pairs[i].dst, p);
      var works: bool := *;
      var made: bool := *;
      if !works { faults := faults + 1; }
      if found == None && (works || made) {
        pairs := pairs[i := MadeDir(pairs[i], p)];
      }
      ok := works && found in {None, Some(Dir)};
      history := history + [pairs];
    }

    /** Follows links, so that a dangling one does not exist. */
    method Exists(i: nat, p: Path) returns (r: bool)
      requires Valid() && i < |pairs|
      ensures Get(pairs[i].dst, p) != Some(Link) ==> r == (p in pairs[i].dst)
    {
      var dangling: bool := *;
      r := p in pairs[i].dst && !(pairs[i].dst[p] == Link && dangling);
    }

    /** Moves a file in one step. */
    method Rename(i: nat, p: Path) returns (ok: bool)
      requires Valid() && i < |pairs| && HasParent(pairs[i].dst, p)
      requires p in pairs[i].src && pairs[i].src[p].File? && p !in pairs[i].dst
      modifies this
      ensures Valid() && faults >= old(faults) && history == old(history) + [pairs]
      ensures pairs == if ok then old(pairs)[i := Moved(old(pairs[i]), p)] else old(pairs)
      ensures !ok ==> faults > old(faults)
    {
      var works: bool := *;
      if works {
        LeafGone(pairs[i].src, p);
        pairs := pairs[i := Moved(pairs[i], p)];
      } else { faults := faults + 1; }
      ok := works;
      history := history + [pairs];
    }

    /** Removes an empty directory. */
    method RemoveDir(i: nat, p: Path) returns (ok: bool)
      requires Valid() && i < |pairs| && Get(pairs[i].src, p) == Some(Dir)
      modifies this
      ensures Valid() && faults >= old(faults) && history == old(history) + [pairs]
      ensures pairs == if ok then old(pairs)[i := Without(old(pairs[i]), p)] else old(pairs)
      ensures !ok ==> faults > old(faults) || HasChild(old(pairs[i].src), p)
    {
      var works: bool := *;
      if !works { faults := faults + 1; }
      ok := works && !HasChild(pairs[i].src, p);
      if ok {
        pairs := pairs[i := Without(pairs[i], p)];
      }
      history := history + [pairs];
    }
  }

  predicate Lists(tree: Tree, p: Path, names: seq<string>) {
    && (forall n <- names :: p + [n] in tree)
    && (forall q <- tree :: |q| == |p| + 1 && p <= q ==> q[|p|] in names)
    && forall a, b :: 0 <= a < b < |names| ==> names[a] != names[b]
  }

  predicate HasChild(tree: Tree, p: Path) {
    exists q <- tree :: |q| == |p| + 1 && p <= q
  }

  function Moved(pair: Pair, p: Path): Pair
    requires p in pair.src
  {
    pair.(src := pair.src - {p}, dst := pair.dst[p := pair.src[p]])
  }

  function MadeDir(pair: Pair, p: Path): Pair {
    pair.(dst := pair.dst[p := Dir])
  }

  function Without(pair: Pair, p: Path): Pair {
    pair.(src := pair.src - {p})
  }

  /** A file has nothing below it. */
  lemma LeafGone(tree: Tree, p: Path)
    requires WellFormed(tree) && p in tree && tree[p].File?
    ensures WellFormed(tree - {p})
  {
    forall q | q in tree - {p} ensures HasParent(tree - {p}, q) {
      assert HasParent(tree, q);
    }
  }

  // ----- preflight -----

  /** `q` lies below `p`, through one of the names. */
  predicate Under(q: Path, p: Path, names: seq<string>) {
    |p| < |q| && p <= q && q[|p|] in names
  }

  /** All that lies below a directory lies under a listed name. */
  lemma ListedCovers(tree: Tree, p: Path, names: seq<string>, q: Path)
    requires WellFormed(tree) && Lists(tree, p, names)
    requires q in tree && p <= q && q != p
    ensures Under(q, p, names)
  {
    var child := q[..|p| + 1];
    if child != q {
      AncestorIn(tree, q, |p| + 1);
    }
    assert child in tree && |child| == |p| + 1 && p <= child && child[|p|] == q[|p|];
  }

  method Preflight(disk: Disk, i: nat, p: Path, ghost bound: nat) returns (ok: bool)
    requires disk.Valid() && i < |disk.pairs|
    requires |p| <= bound && forall q <- disk.pairs[i].src :: |q| <= bound
    modifies disk`faults
    ensures disk.Valid() && disk.faults >= old(disk.faults)
    ensures ok ==> CompatibleBelow(disk.pairs[i], p)
    ensures !ok ==> disk.faults > old(disk.faults) || !CompatibleBelow(disk.pairs[i], p)
    decreases bound - |p|, 1
  {
    var pair := disk.pairs[i];
    var source := disk.Inspect(i, p, true);
    if source.Err? { return false; }
    if source.value == None {
      NothingBelow(pair.src, p);
      return true;
    }
    var destination := disk.Inspect(i, p, false);
    if destination.Err? { return false; }
    if source.value != Some(Dir) {
      ok := source.value.value.File? && destination.value == None;
      if ok { NothingElseBelow(pair.src, p); }
      return;
    }
    if destination.value.Some? && destination.value != Some(Dir) { return false; }
    ok := PreflightEntries(disk, i, p, bound);
  }

  method PreflightEntries(disk: Disk, i: nat, p: Path, ghost bound: nat) returns (ok: bool)
    requires disk.Valid() && i < |disk.pairs| && Get(disk.pairs[i].src, p) == Some(Dir)
    requires Get(disk.pairs[i].dst, p) in {None, Some(Dir)}
    requires |p| <= bound && forall q <- disk.pairs[i].src :: |q| <= bound
    modifies disk`faults
    ensures disk.Valid() && disk.faults >= old(disk.faults)
    ensures ok ==> CompatibleBelow(disk.pairs[i], p)
    ensures !ok ==> disk.faults > old(disk.faults) || !CompatibleBelow(disk.pairs[i], p)
    decreases bound - |p|, 0
  {
    var pair := disk.pairs[i];
    var names := disk.ReadDir(i, p);
    if names.Err? { return false; }
    for k := 0 to |names.value|
      invariant disk.Valid() && disk.faults >= old(disk.faults)
      invariant CompatibleUnder(pair, p, names.value[..k])
    {
      var child := p + [names.value[k]];
      assert child in pair.src;
      var fine := Preflight(disk, i, child, bound);
      if !fine {
        if CompatibleBelow(pair, p) { CompatibleChild(pair, p, child); }
        return false;
      }
      AnotherCompatible(pair, p, names.value, k);
    }
    assert names.value[..|names.value|] == names.value;
    AllCompatible(pair, p, names.value);
    ok := true;
  }

  ghost predicate CompatibleUnder(pair: Pair, p: Path, names: seq<string>) {
    forall q <- pair.src :: Under(q, p, names) ==> Fits(pair.src[q], Get(pair.dst, q))
  }

  lemma CompatibleChild(pair: Pair, p: Path, child: Path)
    requires p <= child && CompatibleBelow(pair, p)
    ensures CompatibleBelow(pair, child)
  {
    forall q | q in pair.src && child <= q ensures Fits(pair.src[q], Get(pair.dst, q)) {
      assert p <= q;
    }
  }

  /** Below one more name: below one of the others, or below that child. */
  lemma UnderNext(q: Path, p: Path, names: seq<string>, k: nat)
    requires k < |names|
    ensures Under(q, p, names[..k + 1]) <==> Under(q, p, names[..k]) || p + [names[k]] <= q
  {
    assert names[..k + 1] == names[..k] + [names[k]];
    var child := p + [names[k]];
    if |p| < |q| && p <= q && q[|p|] == names[k] {
      assert q[..|p| + 1] == child;
    }
    if child <= q {
      assert q[..|p|] == child[..|p|] == p && q[|p|] == child[|p|];
    }
  }

  lemma AnotherCompatible(pair: Pair, p: Path, names: seq<string>, k: nat)
    requires k < |names| && CompatibleUnder(pair, p, names[..k]) && CompatibleBelow(pair, p + [names[k]])
    ensures CompatibleUnder(pair, p, names[..k + 1])
  {
    forall q | q in pair.src && Under(q, p, names[..k + 1]) ensures Fits(pair.src[q], Get(pair.dst, q)) {
      UnderNext(q, p, names, k);
    }
  }

  lemma AllCompatible(pair: Pair, p: Path, names: seq<string>)
    requires WellFormed(pair.src) && Lists(pair.src, p, names) && CompatibleUnder(pair, p, names)
    requires Get(pair.src, p) == Some(Dir) && Get(pair.dst, p) in {None, Some(Dir)}
    ensures CompatibleBelow(pair, p)
  {
    forall q | q in pair.src && p <= q ensures Fits(pair.src[q], Get(pair.dst, q)) {
      if q != p { ListedCovers(pair.src, p, names, q); }
    }
  }

  lemma NothingBelow(tree: Tree, p: Path)
    requires WellFormed(tree) && p !in tree
    ensures forall q <- tree :: !(p <= q)
  {
    forall q | q in tree ensures !(p <= q) {
      if p <= q {
        assert |q| > |p| || q == p;
        assert q[..|p|] == p;
        AncestorIn(tree, q, |p|);
      }
    }
  }

  lemma NothingElseBelow(tree: Tree, p: Path)
    requires WellFormed(tree) && p in tree && tree[p] != Dir
    ensures forall q <- tree :: p <= q ==> q == p
  {
    forall q | q in tree && p <= q ensures q == p {
      if q != p {
        assert |q| > |p| && q[..|p|] == p;
        AncestorIn(tree, q, |p|);
      }
    }
  }

  // ----- merge -----

  /** From `o` to `n`, exactly what lay below `p` in the source moved. */
  ghost predicate MovedBelow(o: Pair, n: Pair, p: Path) {
    && (forall q :: p <= q ==> GoneAt(o, n, q))
    && (forall q :: !(p <= q) ==> SameAt(o, n, q))
  }

  ghost predicate MovedUnder(o: Pair, n: Pair, p: Path, names: seq<string>) {
    && (forall q :: Under(q, p, names) ==> GoneAt(o, n, q))
    && (forall q :: !Under(q, p, names) ==> SameAt(o, n, q))
  }

  predicate SameAt(o: Pair, n: Pair, q: Path) {
    Get(n.src, q) == Get(o.src, q) && Get(n.dst, q) == Get(o.dst, q)
  }

  predicate GoneAt(o: Pair, n: Pair, q: Path) {
    q !in n.src && Get(n.dst, q) == if q in o.src then Some(o.src[q]) else Get(o.dst, q)
  }

  /** `now` differs from `before` only in pair `i`, whose links are the same. */
  ghost predicate OnlyPair(before: seq<Pair>, now: seq<Pair>, i: nat) {
    && |now| == |before| && i < |now| && now[i].linkAbove == before[i].linkAbove
    && forall j :: 0 <= j < |now| && j != i ==> now[j] == before[j]
  }

  /** One step in pair `i` that stays between the start and the end of the migration. */
  lemma StepOnTrail(start: seq<Pair>, before: seq<Pair>, now: seq<Pair>, i: nat, history: seq<seq<Pair>>,
                    began: seq<seq<Pair>>)
    requires AllMid(start, before) && OnlyPair(before, now, i) && Mid(start[i], now[i])
    requires Trail(start, history, began)
    ensures AllMid(start, now) && Trail(start, history + [now], began)
  {
  }

  method MoveFile(disk: Disk, i: nat, p: Path, ghost start: seq<Pair>, ghost began: seq<seq<Pair>>) returns (ok: bool)
    requires disk.Valid() && i < |disk.pairs| && HasParent(disk.pairs[i].dst, p)
    requires p in disk.pairs[i].src && disk.pairs[i].src[p].File? && p !in disk.pairs[i].dst
    requires AllMid(start, disk.pairs) && Trail(start, disk.history, began)
    modifies disk
    ensures disk.Valid() && OnlyPair(old(disk.pairs), disk.pairs, i) && disk.faults >= old(disk.faults)
    ensures AllMid(start, disk.pairs) && Trail(start, disk.history, began)
    ensures ok ==> MovedBelow(old(disk.pairs[i]), disk.pairs[i], p)
    ensures !ok ==> disk.faults > old(disk.faults)
  {
    var there := disk.Exists(i, p);
    if there { assert false; }
    ghost var before := disk.pairs;
    ok := disk.Rename(i, p);
    if ok {
      FileMoved(start[i], before[i], p);
    }
    StepOnTrail(start, before, disk.pairs, i, old(disk.history), began);
  }

  lemma FileMoved(start: Pair, pair: Pair, p: Path)
    requires WellFormed(pair.src) && p in pair.src && pair.src[p].File? && p !in pair.dst && Mid(start, pair)
    ensures Mid(start, Moved(pair, p)) && MovedBelow(pair, Moved(pair, p), p)
  {
    forall q ensures MidAt(start, Moved(pair, p), q) {
      assert MidAt(start, pair, q);
    }
    NothingElseBelow(pair.src, p);
  }

  lemma DirMade(start: Pair, pair: Pair, p: Path)
    requires Mid(start, pair) && Get(pair.src, p) == Some(Dir) && p !in pair.dst
    ensures Mid(start, MadeDir(pair, p))
  {
    forall q ensures MidAt(start, MadeDir(pair, p), q) {
      assert MidAt(start, pair, q);
    }
  }

  lemma DirRemoved(start: Pair, pair: Pair, p: Path)
    requires Mid(start, pair) && Get(pair.src, p) == Some(Dir) == Get(pair.dst, p)
    ensures Mid(start, Without(pair, p))
  {
    forall q ensures MidAt(start, Without(pair, p), q) {
      assert MidAt(start, pair, q);
    }
  }

  method MakeDir(disk: Disk, i: nat, p: Path, ghost start: seq<Pair>, ghost began: seq<seq<Pair>>) returns (ok: bool)
    requires disk.Valid() && i < |disk.pairs| && HasParent(disk.pairs[i].dst, p)
    requires Get(disk.pairs[i].src, p) == Some(Dir) && Get(disk.pairs[i].dst, p) in {None, Some(Dir)}
    requires AllMid(start, disk.pairs) && Trail(start, disk.history, began)
    modifies disk
    ensures disk.Valid() && OnlyPair(old(disk.pairs), disk.pairs, i) && disk.faults >= old(disk.faults)
    ensures AllMid(start, disk.pairs) && Trail(start, disk.history, began)
    ensures disk.pairs[i].src == old(disk.pairs[i].src)
    ensures ok ==> disk.pairs[i] == MadeDir(old(disk.pairs[i]), p)
    ensures !ok ==> disk.faults > old(disk.faults)
  {
    ghost var before := disk.pairs;
    ok := disk.CreateDirAll(i, p);
    if p !in before[i].dst { DirMade(start[i], before[i], p); }
    assert ok && p in before[i].dst ==> before[i].dst[p := Dir] == before[i].dst;
    StepOnTrail(start, before, disk.pairs, i, old(disk.history), began);
  }

  method DropDir(disk: Disk, i: nat, p: Path, ghost start: seq<Pair>, ghost began: seq<seq<Pair>>) returns (ok: bool)
    requires disk.Valid() && i < |disk.pairs|
    requires Get(disk.pairs[i].src, p) == Some(Dir) == Get(disk.pairs[i].dst, p)
    requires AllMid(start, disk.pairs) && Trail(start, disk.history, began)
    modifies disk
    ensures disk.Valid() && OnlyPair(old(disk.pairs), disk.pairs, i) && disk.faults >= old(disk.faults)
    ensures AllMid(start, disk.pairs) && Trail(start, disk.history, began)
    ensures ok ==> disk.pairs[i] == Without(old(disk.pairs[i]), p)
    ensures !ok ==> disk.faults > old(disk.faults) || HasChild(old(disk.pairs[i].src), p)
  {
    ghost var before := disk.pairs;
    ok := disk.RemoveDir(i, p);
    DirRemoved(start[i], before[i], p);
    StepOnTrail(start, before, disk.pairs, i, old(disk.history), began);
  }

  method Merge(disk: Disk, i: nat, p: Path, ghost bound: nat, ghost start: seq<Pair>, ghost began: seq<seq<Pair>>)
    returns (ok: bool)
    requires disk.Valid() && i < |disk.pairs| && HasParent(disk.pairs[i].dst, p) && CompatibleBelow(disk.pairs[i], p)
    requires |p| <= bound && forall q <- disk.pairs[i].src :: |q| <= bound
    requires AllMid(start, disk.pairs) && Trail(start, disk.history, began)
    modifies disk
    ensures disk.Valid() && OnlyPair(old(disk.pairs), disk.pairs, i) && disk.faults >= old(disk.faults)
    ensures AllMid(start, disk.pairs) && Trail(start, disk.history, began)
    ensures ok ==> MovedBelow(old(disk.pairs[i]), disk.pairs[i], p)
    ensures !ok ==> disk.faults > old(disk.faults)
    decreases bound - |p|, 1
  {
    var source := disk.Inspect(i, p, true);
    if source.Err? { return false; }
    if source.value == None {
      NothingBelow(disk.pairs[i].src, p);
      return true;
    }
    if source.value == Some(Dir) {
      ok := MergeDirectory(disk, i, p, bound, start, began);
    } else {
      ok := MoveFile(disk, i, p, start, began);
    }
  }

  method MergeDirectory(disk: Disk, i: nat, p: Path, ghost bound: nat, ghost start: seq<Pair>,
                        ghost began: seq<seq<Pair>>)
    returns (ok: bool)
    requires disk.Valid() && i < |disk.pairs| && HasParent(disk.pairs[i].dst, p) && CompatibleBelow(disk.pairs[i], p)
    requires Get(disk.pairs[i].src, p) == Some(Dir)
    requires |p| <= bound && forall q <- disk.pairs[i].src :: |q| <= bound
    requires AllMid(start, disk.pairs) && Trail(start, disk.history, began)
    modifies disk
    ensures disk.Valid() && OnlyPair(old(disk.pairs), disk.pairs, i) && disk.faults >= old(disk.faults)
    ensures AllMid(start, disk.pairs) && Trail(start, disk.history, began)
    ensures ok ==> MovedBelow(old(disk.pairs[i]), disk.pairs[i], p)
    ensures !ok ==> disk.faults > old(disk.faults)
    decreases bound - |p|, 0
  {
    ghost var before := disk.pairs;
    ok := MakeDir(disk, i, p, start, began);
    if !ok { return; }
    ghost var made := disk.pairs;
    var names := disk.ReadDir(i, p);
    if names.Err? { return false; }
    CompatibleMade(before[i], p);
    for k := 0 to |names.value|
      invariant disk.Valid() && OnlyPair(before, disk.pairs, i) && disk.faults >= old(disk.faults)
      invariant AllMid(start, disk.pairs) && Trail(start, disk.history, began)
      invariant MovedUnder(made[i], disk.pairs[i], p, names.value[..k])
    {
      ghost var now := disk.pairs[i];
      NextEntry(made[i], now, p, names.value, k);
      StillBounded(made[i], now, p, names.value, k, bound);
      var merged := Merge(disk, i, p + [names.value[k]], bound, start, began);
      if !merged { return false; }
      EntryMoved(made[i], now, disk.pairs[i], p, names.value, k);
    }
    assert names.value[..|names.value|] == names.value;
    EntriesMoved(before[i], disk.pairs[i], p, names.value);
    ok := DropDir(disk, i, p, start, began);
  }

  lemma CompatibleMade(pair: Pair, p: Path)
    requires CompatibleBelow(pair, p) && Get(pair.src, p) == Some(Dir)
    ensures CompatibleBelow(MadeDir(pair, p), p)
  {
  }

  /** What lies below an entry that is still to be merged is as it was. */
  lemma EntryUntouched(made: Pair, now: Pair, p: Path, names: seq<string>, k: nat, q: Path)
    requires k < |names| && MovedUnder(made, now, p, names[..k])
    requires forall a, b :: 0 <= a < b < |names| ==> names[a] != names[b]
    requires p + [names[k]] <= q
    ensures SameAt(made, now, q) && p <= q
  {
    var child := p + [names[k]];
    assert q[|p|] == child[|p|] == names[k] && q[..|p|] == child[..|p|] == p;
    assert !Under(q, p, names[..k]);
  }

  lemma NextEntry(made: Pair, now: Pair, p: Path, names: seq<string>, k: nat)
    requires k < |names| && Lists(made.src, p, names) && MovedUnder(made, now, p, names[..k])
    requires CompatibleBelow(made, p) && Get(made.dst, p) == Some(Dir)
    ensures CompatibleBelow(now, p + [names[k]]) && HasParent(now.dst, p + [names[k]])
  {
    var child := p + [names[k]];
    forall q | q in now.src && child <= q ensures Fits(now.src[q], Get(now.dst, q)) {
      EntryUntouched(made, now, p, names, k, q);
      assert Get(now.src, q) == Get(made.src, q);
    }
    assert Parent(child) == p && !Under(p, p, names[..k]);
    assert SameAt(made, now, p);
  }

  lemma StillBounded(made: Pair, now: Pair, p: Path, names: seq<string>, k: nat, bound: nat)
    requires k < |names| && Lists(made.src, p, names) && MovedUnder(made, now, p, names[..k])
    requires forall q <- made.src :: |q| <= bound
    ensures |p| < bound && forall q <- now.src :: |q| <= bound
  {
    assert p + [names[k]] in made.src;
    forall q | q in now.src ensures q in made.src {
      assert Under(q, p, names[..k]) ==> GoneAt(made, now, q);
      assert !Under(q, p, names[..k]) ==> SameAt(made, now, q);
    }
  }

  lemma EntryMoved(made: Pair, now: Pair, after: Pair, p: Path, names: seq<string>, k: nat)
    requires k < |names| && MovedUnder(made, now, p, names[..k]) && MovedBelow(now, after, p + [names[k]])
    ensures MovedUnder(made, after, p, names[..k + 1])
  {
    forall q
      ensures Under(q, p, names[..k + 1]) ==> GoneAt(made, after, q)
      ensures !Under(q, p, names[..k + 1]) ==> SameAt(made, after, q)
    {
      UnderNext(q, p, names, k);
      assert Under(q, p, names[..k]) ==> GoneAt(made, now, q);
      assert !Under(q, p, names[..k]) ==> SameAt(made, now, q);
      assert if p + [names[k]] <= q then GoneAt(now, after, q) else SameAt(now, after, q);
    }
  }

  lemma EntryGone(before: Pair, now: Pair, p: Path, names: seq<string>, q: Path)
    requires WellFormed(before.src) && Get(before.src, p) == Some(Dir) && Lists(before.src, p, names)
    requires MovedUnder(MadeDir(before, p), now, p, names)
    requires p <= q && q != p
    ensures GoneAt(before, now, q)
  {
    var made := MadeDir(before, p);
    if q in before.src { ListedCovers(before.src, p, names, q); }
    assert Under(q, p, names) ==> GoneAt(made, now, q);
    assert !Under(q, p, names) ==> SameAt(made, now, q);
  }

  /** With every entry moved the directory is empty, and removing it moves all that lay below it. */
  lemma EntriesMoved(before: Pair, now: Pair, p: Path, names: seq<string>)
    requires WellFormed(before.src) && Get(before.src, p) == Some(Dir) && Lists(before.src, p, names)
    requires MovedUnder(MadeDir(before, p), now, p, names)
    ensures Get(now.src, p) == Some(Dir) == Get(now.dst, p) && !HasChild(now.src, p)
    ensures MovedBelow(before, Without(now, p), p)
  {
    var made := MadeDir(before, p);
    assert !Under(p, p, names) && SameAt(made, now, p);
    forall q | p <= q ensures GoneAt(before, Without(now, p), q) && (q == p || q !in now.src) {
      if q != p { EntryGone(before, now, p, names, q); }
    }
    forall q | !(p <= q) ensures SameAt(before, Without(now, p), q) {
      assert !Under(q, p, names) && SameAt(made, now, q);
    }
  }

  // ----- the migration -----

  datatype Outcome = Refused | Interrupted | Done

  /** The longest path in a tree, as a measure. */
  lemma Longest(tree: Tree) returns (bound: nat)
    ensures forall q <- tree :: |q| <= bound
    decreases |tree|
  {
    bound := 0;
    if p :| p in tree {
      var rest := tree - {p};
      assert |rest.Keys| < |tree.Keys| by { assert rest.Keys == tree.Keys - {p}; }
      bound := Longest(rest);
      if bound < |p| { bound := |p|; }
      assert forall q <- tree :: q == p || q in rest;
    }
  }

  method PreflightAll(disk: Disk) returns (ok: bool)
    requires disk.Valid()
    modifies disk`faults
    ensures disk.Valid() && disk.faults >= old(disk.faults)
    ensures ok ==> forall j :: 0 <= j < |disk.pairs| ==> Acceptable(disk.pairs[j])
    ensures !ok ==> disk.faults > old(disk.faults) || exists j :: 0 <= j < |disk.pairs| && !Acceptable(disk.pairs[j])
  {
    for i := 0 to |disk.pairs|
      invariant disk.Valid() && disk.faults >= old(disk.faults)
      invariant forall j :: 0 <= j < i ==> Acceptable(disk.pairs[j])
    {
      if disk.pairs[i].linkAbove { return false; }
      ghost var bound := Longest(disk.pairs[i].src);
      ok := Preflight(disk, i, [], bound);
      if !ok { return; }
    }
    ok := true;
  }

  lemma AllMoved(o: Pair, n: Pair)
    requires MovedBelow(o, n, []) && n.linkAbove == o.linkAbove
    ensures n == Merged(o)
  {
    forall q ensures Get(n.src, q) == None && Get(n.dst, q) == Get(Union(o), q) {
      assert [] <= q && GoneAt(o, n, q);
    }
    SameTree(n.src, map[]);
    SameTree(n.dst, Union(o));
  }

  method MergePair(disk: Disk, i: nat, ghost start: seq<Pair>, ghost began: seq<seq<Pair>>) returns (ok: bool)
    requires disk.Valid() && i < |disk.pairs| && Acceptable(disk.pairs[i])
    requires AllMid(start, disk.pairs) && Trail(start, disk.history, began)
    modifies disk
    ensures disk.Valid() && OnlyPair(old(disk.pairs), disk.pairs, i) && disk.faults >= old(disk.faults)
    ensures AllMid(start, disk.pairs) && Trail(start, disk.history, began)
    ensures ok ==> disk.pairs[i] == Merged(old(disk.pairs)[i])
    ensures !ok ==> disk.faults > old(disk.faults)
  {
    ghost var bound := Longest(disk.pairs[i].src);
    ghost var before := disk.pairs[i];
    ok := Merge(disk, i, [], bound, start, began);
    if ok { AllMoved(before, disk.pairs[i]); }
  }

  /** Merges the accepted pairs in turn; only a failing file system can stop it. */
  method MergeAll(disk: Disk) returns (ok: bool)
    requires disk.Valid() && forall j :: 0 <= j < |disk.pairs| ==> Acceptable(disk.pairs[j])
    modifies disk
    ensures disk.Valid() && |disk.pairs| == |old(disk.pairs)| && disk.faults >= old(disk.faults)
    ensures !ok ==> disk.faults > old(disk.faults)
    ensures ok ==> forall j :: 0 <= j < |disk.pairs| ==> disk.pairs[j] == Merged(old(disk.pairs)[j])
    ensures Trail(old(disk.pairs), disk.history, old(disk.history))
  {
    ghost var start, began := disk.pairs, disk.history;
    forall j | 0 <= j < |start| ensures Mid(start[j], start[j]) {
      MidMerged(start[j]);
    }
    for i := 0 to |disk.pairs|
      invariant disk.Valid() && |disk.pairs| == |start| && disk.faults >= old(disk.faults)
      invariant AllMid(start, disk.pairs) && Trail(start, disk.history, began)
      invariant forall j :: 0 <= j < |start| ==> disk.pairs[j] == if j < i then Merged(start[j]) else start[j]
    {
      ok := MergePair(disk, i, start, began);
      if !ok { return; }
    }
    ok := true;
  }

  /** Refuses before anything moved, or moves everything unless the file system fails; at every
      moment each node is where it was or where it goes. */
  method MigrateWindowsData(disk: Disk) returns (r: Outcome)
    requires disk.Valid()
    modifies disk
    ensures disk.Valid() && |disk.pairs| == |old(disk.pairs)| && disk.faults >= old(disk.faults)
    ensures r.Refused? ==> disk.pairs == old(disk.pairs) && disk.history == old(disk.history)
    ensures r.Refused? ==>
              disk.faults > old(disk.faults) || exists j :: 0 <= j < |disk.pairs| && !Acceptable(disk.pairs[j])
    ensures !r.Refused? ==> forall j :: 0 <= j < |disk.pairs| ==> Acceptable(old(disk.pairs)[j])
    ensures r.Interrupted? ==> disk.faults > old(disk.faults)
    ensures r.Done? ==> forall j :: 0 <= j < |disk.pairs| ==> disk.pairs[j] == Merged(old(disk.pairs)[j])
    ensures Trail(old(disk.pairs), disk.history, old(disk.history))
  {
    var fine := PreflightAll(disk);
    if !fine { return Refused; }
    var merged := MergeAll(disk);
    r := if merged then Done else Interrupted;
  }

  // ----- runs that stopped and were started again -----

  /** Runs that each ended somewhere between where they began and their result. */
  ghost predicate Attempts(states: seq<seq<Pair>>) {
    0 < |states| && forall k {:trigger states[k]} :: 0 < k < |states| ==> AllMid(states[k - 1], states[k])
  }

  /** However often a migration stopped, the next run still passes preflight, and the run that
      ends it reaches what an uninterrupted first run would have reached. */
  lemma {:induction false} ResumingReachesTheSame(states: seq<seq<Pair>>)
    requires Attempts(states) && forall j :: 0 <= j < |states[0]| ==> Acceptable(states[0][j])
    ensures |states[|states| - 1]| == |states[0]| && AllMid(states[0], states[|states| - 1])
    ensures forall j :: 0 <= j < |states[0]| ==>
              Acceptable(states[|states| - 1][j]) && Merged(states[|states| - 1][j]) == Merged(states[0][j])
  {
    var n := |states| - 1;
    if n == 0 {
      forall j | 0 <= j < |states[0]| ensures Mid(states[0][j], states[0][j]) {
        MidMerged(states[0][j]);
      }
    } else {
      ResumingReachesTheSame(states[..n]);
      assert states[..n][n - 1] == states[n - 1] && AllMid(states[n - 1], states[n]);
      forall j | 0 <= j < |states[0]|
        ensures Mid(states[0][j], states[n][j]) && Acceptable(states[n][j])
                && Merged(states[n][j]) == Merged(states[0][j])
      {
        MidTransitive(states[0][j], states[n - 1][j], states[n][j]);
        MidResumable(states[0][j], states[n][j]);
      }
    }
  }

  /** Nothing is lost or overwritten between: an original file is at exactly one of its two
      paths with its content, and a file of the old destination is unchanged. */
  lemma MidKeepsFiles(o: Pair, n: Pair, q: Path)
    requires Acceptable(o) && Mid(o, n)
    ensures q in o.src && o.src[q].File? ==>
              (Get(n.src, q) == Some(o.src[q])) != (Get(n.dst, q) == Some(o.src[q])) && (q in n.src) != (q in n.dst)
    ensures q in o.dst && o.dst[q].File? ==> Get(n.dst, q) == Get(o.dst, q)
  {
    assert MidAt(o, n, q);
    assert q in o.src ==> Fits(o.src[q], Get(o.dst, q));
  }
}
