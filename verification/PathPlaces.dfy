/** Where an explicit local path leads, and for exactly which paths the keys that the validation
    compares tell whether two of them lead to one place. Links are not followed. */
module PathPlaces {
  import opened Common
  import opened Process
  import opened Text
  import opened Mountpoints
  import opened Registry

  // ----- what a path means -----

  /** The names that lead from the root to the place: an empty part and `.` stay, `..` goes up,
      and at the root it stays. */
  function Location(parts: seq<string>): seq<string> {
    if parts == [] then []
    else
      var before := Location(parts[..|parts| - 1]);
      var part := parts[|parts| - 1];
      if part == "" || part == "." then before
      else if part == ".." then (if before == [] then [] else before[..|before| - 1])
      else before + [part]
  }

  predicate Name(part: string) {
    part != "" && part != "." && part != ".."
  }

  lemma {:induction false} LocationNames(parts: seq<string>)
    ensures forall n <- Location(parts) :: Name(n) && n in parts
  {
    if parts != [] {
      var before := parts[..|parts| - 1];
      LocationNames(before);
      assert parts == before + [parts[|parts| - 1]];
    }
  }

  /** How many `..` find nothing to leave. */
  function Rises(parts: seq<string>): nat {
    if parts == [] then 0
    else
      var before := parts[..|parts| - 1];
      Rises(before) + if parts[|parts| - 1] == ".." && Location(before) == [] then 1 else 0
  }

  function Root(key: string): string {
    Split(key, '/')[0]
  }

  function Below(key: string): seq<string> {
    Split(key, '/')[1..]
  }

  /** The key starts at a root: the empty part before the first slash, or a drive. */
  predicate Rooted(key: string) {
    Root(key) != "." && Root(key) != ".."
  }

  predicate SamePlace(key: string, key': string) {
    Root(key) == Root(key') && Location(Below(key)) == Location(Below(key'))
  }

  function Canonical(key: string): string {
    Join([Root(key)] + Location(Below(key)), "/")
  }

  /** No empty part below the root, and an even number of `..` at the root, or none on a drive. */
  predicate RegularParts(root: string, parts: seq<string>) {
    "" !in parts && if root == "" then Rises(parts) % 2 == 0 else Rises(parts) == 0
  }

  predicate Regular(key: string) {
    RegularParts(Root(key), Below(key))
  }

  // ----- what the stack leaves of it -----

  /** What a `..` at the root leaves behind: a false name that the next one takes away. On a drive
      the first one takes the drive. */
  function Base(root: string, rises: nat): seq<string> {
    if root == "" then (if rises % 2 == 0 then [""] else ["", ".."])
    else if rises == 0 then [root] else if rises % 2 == 0 then [".."] else []
  }

  lemma {:induction false} StackLocation(root: string, parts: seq<string>)
    requires root != "." && root != ".." && "" !in parts
    ensures Stack([root] + parts) == Base(root, Rises(parts)) + Location(parts)
  {
    if parts == [] {
      StackSnoc([], root);
      assert [root] + parts == [] + [root];
    } else {
      var before, part := parts[..|parts| - 1], parts[|parts| - 1];
      assert parts == before + [part] && part in parts;
      StackLocation(root, before);
      Grown(root, before, part, parts);
    }
  }

  lemma Grown(root: string, before: seq<string>, part: string, parts: seq<string>)
    requires root != "." && root != ".." && part != "" && parts == before + [part]
    requires Stack([root] + before) == Base(root, Rises(before)) + Location(before)
    ensures Stack([root] + parts) == Base(root, Rises(parts)) + Location(parts)
  {
    GrownStack(root, before, part, parts);
    LocationSnoc(before, part);
    LocationNames(before);
    Combined(root, Rises(before), Rises(parts), Stack([root] + before), Stack([root] + parts),
             Location(before), Location(parts), part);
  }

  lemma Combined(root: string, rises: nat, rises': nat, stack: seq<string>, stack': seq<string>, names: seq<string>,
                 names': seq<string>, part: string)
    requires root != "." && root != ".." && part != "" && forall n <- names :: Name(n)
    requires stack == Base(root, rises) + names && stack' == Push(stack, part)
    requires names' == Walk(names, part) && rises' == rises + if part == ".." && names == [] then 1 else 0
    ensures stack' == Base(root, rises') + names'
  {
    Stepped(root, rises, names, part);
  }

  lemma GrownStack(root: string, before: seq<string>, part: string, parts: seq<string>)
    requires parts == before + [part]
    ensures Stack([root] + parts) == Push(Stack([root] + before), part)
  {
    StackSnoc([root] + before, part);
    assert [root] + parts == [root] + before + [part];
  }

  /** One more part on the stack, and on the way from the root. */
  function Push(stack: seq<string>, part: string): seq<string> {
    if part == "." then stack
    else if part == ".." && stack != [] && stack[|stack| - 1] != "" then stack[..|stack| - 1]
    else stack + [part]
  }

  function Walk(names: seq<string>, part: string): seq<string> {
    if part == "" || part == "." then names
    else if part == ".." then (if names == [] then [] else names[..|names| - 1])
    else names + [part]
  }

  lemma StackSnoc(before: seq<string>, part: string)
    ensures Stack(before + [part]) == Push(Stack(before), part)
  {
    assert (before + [part])[..|before|] == before;
  }

  lemma LocationSnoc(before: seq<string>, part: string)
    ensures Location(before + [part]) == Walk(Location(before), part)
    ensures Rises(before + [part]) == Rises(before) + if part == ".." && Location(before) == [] then 1 else 0
  {
    assert (before + [part])[..|before|] == before;
  }

  lemma Stepped(root: string, rises: nat, names: seq<string>, part: string)
    requires root != "." && root != ".." && part != "" && forall n <- names :: Name(n)
    ensures Push(Base(root, rises) + names, part)
         == Base(root, rises + if part == ".." && names == [] then 1 else 0) + Walk(names, part)
  {
    var bottom := Base(root, rises);
    if part == ".." && names != [] {
      NamePopped(bottom, names);
    } else if part == ".." {
      assert bottom + names == bottom && Base(root, rises + 1) + [] == Base(root, rises + 1);
      RootPopped(root, rises);
    } else if part != "." {
      assert bottom + names + [part] == bottom + (names + [part]);
    }
  }

  lemma NamePopped(bottom: seq<string>, names: seq<string>)
    requires names != [] && forall n <- names :: Name(n)
    ensures var all := bottom + names;
      all[|all| - 1] != "" && all[..|all| - 1] == bottom + names[..|names| - 1]
  {
    assert names[|names| - 1] in names;
  }

  lemma RootPopped(root: string, rises: nat)
    requires root != "." && root != ".."
    ensures var bottom := Base(root, rises);
      if bottom != [] && bottom[|bottom| - 1] != "" then Base(root, rises + 1) == bottom[..|bottom| - 1]
      else Base(root, rises + 1) == bottom + [".."]
  {
  }

  /** An empty part is never taken away again. */
  lemma {:induction false} EmptyStays(root: string, parts: seq<string>)
    requires "" in parts
    ensures var stack := Stack([root] + parts);
      exists i :: (if root == "" then 1 else 0) <= i < |stack| && stack[i] == ""
  {
    var all := [root] + parts;
    var before, part := parts[..|parts| - 1], parts[|parts| - 1];
    assert all[..|all| - 1] == [root] + before && all[|all| - 1] == part;
    var stack := Stack([root] + before);
    if "" in before {
      EmptyStays(root, before);
      var i :| (if root == "" then 1 else 0) <= i < |stack| && stack[i] == "";
      assert Stack(all)[i] == "";
    } else {
      assert part == "" by { assert parts == before + [part]; }
      if root == "" { RootStays(before); }
      assert Stack(all)[|stack|] == "";
    }
  }

  lemma {:induction false} RootStays(parts: seq<string>)
    ensures Stack([""] + parts) != [] && Stack([""] + parts)[0] == ""
  {
    var all := [""] + parts;
    if parts == [] {
      assert all[..0] == [] && Stack(all[..0]) == [];
    } else {
      assert all[..|all| - 1] == [""] + parts[..|parts| - 1];
      RootStays(parts[..|parts| - 1]);
    }
  }

  /** The stack finds the place exactly for regular parts. */
  lemma StackExact(root: string, parts: seq<string>)
    requires root != "." && root != ".."
    ensures Stack([root] + parts) == [root] + Location(parts) <==> RegularParts(root, parts)
  {
    if "" in parts {
      EmptyStays(root, parts);
      var stack := Stack([root] + parts);
      var i :| (if root == "" then 1 else 0) <= i < |stack| && stack[i] == "";
      LocationNames(parts);
      if i <= |Location(parts)| { NotEmptyAt(root, Location(parts), i); }
    } else {
      StackLocation(root, parts);
      var (base, names) := (Base(root, Rises(parts)), Location(parts));
      if base + names == [root] + names {
        assert |base| == 1 && (base + names)[0] == base[0];
      }
    }
  }

  lemma NotEmptyAt(root: string, names: seq<string>, i: nat)
    requires (root == "" ==> i > 0) && i <= |names| && forall n <- names :: Name(n)
    ensures ([root] + names)[i] != ""
  {
    if i > 0 { assert ([root] + names)[i] == names[i - 1] && names[i - 1] in names; }
  }

  // ----- keys -----

  lemma KeyParts(key: string)
    ensures Split(key, '/') == [Root(key)] + Below(key)
    ensures '/' !in Root(key) && forall p <- Below(key) :: '/' !in p
  {
    JoinSplit(key, '/');
  }

  lemma {:induction false} JoinedSame(a: seq<string>, b: seq<string>)
    requires |a| > 0 && |b| > 0 && (forall p <- a :: '/' !in p) && forall p <- b :: '/' !in p
    ensures Join(a, "/") == Join(b, "/") <==> a == b
  {
    SplitJoin(a, '/');
    SplitJoin(b, '/');
  }

  /** Normalising a key gives its canonical form exactly when the key is regular. */
  lemma NormalisedExact(key: string)
    requires Rooted(key)
    ensures Normalised(key) == Canonical(key) <==> Regular(key)
  {
    var (root, below) := (Root(key), Below(key));
    KeyParts(key);
    StackExact(root, below);
    var stack := Stack([root] + below);
    StackReduces([root] + below);
    if stack == [] {
      assert Canonical(key) == root + if Location(below) == [] then "" else "/" + Join(Location(below), "/") by {
        assert ([root] + Location(below))[1..] == Location(below);
      }
      EmptyStack(root, below);
    } else {
      LocationNames(below);
      JoinedSame(stack, [root] + Location(below));
    }
  }

  /** The stack is empty only when a `..` took a drive, and then the key is not regular. */
  lemma EmptyStack(root: string, parts: seq<string>)
    requires root != "." && root != ".." && Stack([root] + parts) == []
    ensures root != "" && !RegularParts(root, parts)
  {
    if root == "" { RootStays(parts); }
    StackExact(root, parts);
  }

  lemma CanonicalRegular(key: string)
    requires Rooted(key)
    ensures Rooted(Canonical(key)) && Regular(Canonical(key)) && SamePlace(key, Canonical(key))
    ensures Canonical(Canonical(key)) == Canonical(key)
  {
    KeyParts(key);
    var names := Location(Below(key));
    var parts := [Root(key)] + names;
    LocationNames(Below(key));
    SplitJoin(parts, '/');
    assert parts[1..] == names;
    NamesStay(names);
  }

  lemma {:induction false} NamesStay(names: seq<string>)
    requires forall n <- names :: Name(n)
    ensures Location(names) == names && Rises(names) == 0
  {
    if names != [] {
      var before, last := names[..|names| - 1], names[|names| - 1];
      assert forall n <- before :: n in names;
      NamesStay(before);
      assert Name(last) by { assert last in names; }
      assert names == before + [last];
    }
  }

  lemma CanonicalSame(key: string, key': string)
    ensures Canonical(key) == Canonical(key') <==> SamePlace(key, key')
  {
    KeyParts(key);
    KeyParts(key');
    LocationNames(Below(key));
    LocationNames(Below(key'));
    var (a, b) := ([Root(key)] + Location(Below(key)), [Root(key')] + Location(Below(key')));
    JoinedSame(a, b);
    assert a[1..] == Location(Below(key)) && b[1..] == Location(Below(key'));
  }

  predicate DecidesAgainst(key: string, key': string) {
    Normalised(key) == Normalised(key') <==> SamePlace(key, key')
  }

  /** Comparing its normalised key with those of the regular ones tells whether they lead to the
      same place exactly when a key is regular itself. */
  lemma KeysDecideExactly(key: string)
    requires Rooted(key)
    ensures (forall key' :: Rooted(key') && Regular(key') ==> DecidesAgainst(key, key')) <==> Regular(key)
  {
    NormalisedExact(key);
    if Regular(key) {
      forall key' | Rooted(key') && Regular(key') ensures DecidesAgainst(key, key') {
        NormalisedExact(key');
        CanonicalSame(key, key');
      }
    } else {
      CanonicalRegular(key);
      NormalisedExact(Canonical(key));
      assert !DecidesAgainst(key, Canonical(key));
    }
  }

  // ----- two spellings of one place -----

  /** An absolute path that the key takes over as it is. */
  predicate Plain(path: string) {
    |path| > 1 && path[0] == '/' && path[|path| - 1] != '/' && forall c <- path :: PlainChar(c)
  }

  predicate PlainChar(c: char) {
    c != '\\' && c != ':' && !Space(c) && !Control(c)
  }

  lemma PlainKey(path: string, home: string)
    requires Plain(path)
    ensures ExplicitKey(path, home, false) == Some(Normalised(path))
    ensures PlainPath(path) && NormalMountpoint(path, false)
  {
    assert path[0] in path && path[|path| - 1] in path && path[1] in path;
    assert Trim(path) == path;
    assert Normalize(path, false) == path by {
      forall i | 0 <= i < |path| ensures path[i] != '\\' { assert path[i] in path; }
    }
    assert !EqualsAuto(path) && path != HOME_MOUNTPOINT_VALUE && WindowsDrive(path).None?;
  }

  function MountedAt(id: string, mountpoint: string): Server {
    Server(id, "h", "u", "22", true, "x", mountpoint, [])
  }

  /** An irregular spelling of a regular path has another key, so that two connections can be given
      one place. */
  lemma SpellingsDiffer(p: string, q: string, home: string)
    requires Plain(p) && Plain(q) && Rooted(p) && Rooted(q) && SamePlace(p, q) && Regular(q) && !Regular(p)
    ensures ExplicitKey(p, home, false) != ExplicitKey(q, home, false)
    ensures ValidMappings(MountedAt("b", q), [MountedAt("a", p)], home, false)
  {
    PlainKey(p, home);
    PlainKey(q, home);
    NormalisedExact(p);
    NormalisedExact(q);
    CanonicalSame(p, q);
    AcceptedBeside(p, q, home);
  }

  lemma AcceptedBeside(p: string, q: string, home: string)
    requires ExplicitKey(p, home, false).Some? && ExplicitKey(p, home, false) != ExplicitKey(q, home, false)
    requires PlainPath(q) && NormalMountpoint(q, false)
    ensures ValidMappings(MountedAt("b", q), [MountedAt("a", p)], home, false)
  {
    var (a, b) := (MountedAt("a", p), MountedAt("b", q));
    assert [a][1..] == [] && OtherTargets(b, [a]) == MountTargets(a) + OtherTargets(b, []);
    assert MountTargets(a) == [Target("a", "x", p)] && MountTargets(b) == [Target("b", "x", q)];
    assert PlainPath("x");
  }

  lemma {:induction false} JoinedPlain(parts: seq<string>)
    requires |parts| > 0 && forall p <- parts, c <- p :: PlainChar(c) && c != '/'
    ensures forall c <- Join(parts, "/") :: PlainChar(c)
    ensures var (joined, last) := (Join(parts, "/"), parts[|parts| - 1]);
      last != "" ==> joined != "" && joined[|joined| - 1] == last[|last| - 1] != '/'
  {
    var rest := parts[1..];
    if |parts| > 1 {
      JoinedPlain(rest);
      assert Join(parts, "/") == parts[0] + "/" + Join(rest, "/");
      assert parts[|parts| - 1] == rest[|rest| - 1];
      assert parts[0] in parts && PlainChar('/');
    } else {
      assert parts[0] in parts;
      assert parts[0] != "" ==> parts[0][|parts[0]| - 1] in parts[0];
    }
  }

  /** The parts of an absolute path. */
  predicate Parts(key: string, below: seq<string>) {
    key == Join([""] + below, "/") && below != [] && below[|below| - 1] != ""
    && forall p <- below, c <- p :: PlainChar(c) && c != '/'
  }

  lemma AbsoluteKey(key: string, below: seq<string>)
    requires Parts(key, below)
    ensures Root(key) == "" && Below(key) == below && Plain(key)
  {
    var parts := [""] + below;
    SplitJoin(parts, '/');
    assert parts[1..] == below;
    JoinedPlain(parts);
    assert key == "" + "/" + Join(below, "/");
    JoinedPlain(below);
  }

  /** A doubled slash: `/a//b` leads to where `/a/b` does. */
  lemma DoubledSlash(p: string, q: string, home: string)
    requires Parts(p, ["a", "", "b"]) && Parts(q, ["a", "b"])
    ensures SamePlace(p, q) && ExplicitKey(p, home, false) != ExplicitKey(q, home, false)
    ensures ValidMappings(MountedAt("b", q), [MountedAt("a", p)], home, false)
  {
    AbsoluteKey(p, ["a", "", "b"]);
    AbsoluteKey(q, ["a", "b"]);
    Walked("a", "b");
    assert "" in ["a", "", "b"];
    SpellingsDiffer(p, q, home);
  }

  lemma Walked(a: string, b: string)
    requires Name(a) && Name(b)
    ensures Location([a, "", b]) == Location([a, b]) == [a, b] && Rises([a, b]) == 0
  {
    LocationSnoc([], a);
    LocationSnoc([a], "");
    LocationSnoc([a, ""], b);
    LocationSnoc([a], b);
    assert [] + [a] == [a] && [a] + [""] == [a, ""] && [a, ""] + [b] == [a, "", b] && [a] + [b] == [a, b];
  }

  /** A `..` at the root: `/../x` leads to where `/x` does. */
  lemma ParentOfRoot(p: string, q: string, home: string)
    requires Parts(p, ["..", "x"]) && Parts(q, ["x"])
    ensures SamePlace(p, q) && ExplicitKey(p, home, false) != ExplicitKey(q, home, false)
    ensures ValidMappings(MountedAt("b", q), [MountedAt("a", p)], home, false)
  {
    AbsoluteKey(p, ["..", "x"]);
    AbsoluteKey(q, ["x"]);
    Risen("x");
    SpellingsDiffer(p, q, home);
  }

  lemma Risen(x: string)
    requires Name(x)
    ensures Location(["..", x]) == Location([x]) == [x] && Rises(["..", x]) == 1 && Rises([x]) == 0
  {
    WithName("..", x);
    Alone("..");
    Alone(x);
  }

  lemma Alone(part: string)
    requires Name(part) || part == ".."
    ensures Location([part]) == (if part == ".." then [] else [part]) && Rises([part]) == if part == ".." then 1 else 0
  {
    LocationSnoc([], part);
    assert [] + [part] == [part];
  }

  lemma WithName(part: string, x: string)
    requires Name(x)
    ensures Location([part, x]) == Location([part]) + [x] && Rises([part, x]) == Rises([part])
  {
    LocationSnoc([part], x);
    assert [part] + [x] == [part, x];
  }

  /** Both pairs of paths exist. */
  lemma Spellings() returns (p: string, q: string, r: string, s: string)
    ensures Parts(p, ["a", "", "b"]) && Parts(q, ["a", "b"]) && Parts(r, ["..", "x"]) && Parts(s, ["x"])
  {
    p, q := Join([""] + ["a", "", "b"], "/"), Join([""] + ["a", "b"], "/");
    r, s := Join([""] + ["..", "x"], "/"), Join([""] + ["x"], "/");
  }
}
