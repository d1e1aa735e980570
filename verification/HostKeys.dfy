/** Host keys that were reviewed and confirmed: reading and rewriting a known_hosts file so that
    confirming is a compare-and-swap on the keys bound to one host. */
module HostKeys {
  import opened Common
  import opened Text

  /** What the model does not compute: whether a key parses, and whether a hashed host name
      (`|1|salt|hash`) is the hash of a name. */
  datatype Crypto = Crypto(valid: (string, string) -> bool, hashed: (string, string) -> bool)

  // ----- markers and the patterns that match them -----

  predicate HostChar(c: char) {
    'a' <= c <= 'z' || 'A' <= c <= 'Z' || '0' <= c <= '9' || c == '.' || c == '_' || c == '-' || c == ':'
  }

  predicate HostAlias(host: string) {
    host != "" && host[0] != '-' && forall c <- host :: HostChar(c)
  }

  /** A validated port: the decimal digits of a positive number. */
  predicate PortText(port: string) {
    port != "" && forall c <- port :: '0' <= c <= '9'
  }

  /** A host and a port, and the marker that stands for both in a known_hosts file. */
  datatype Host = Host(name: string, port: string) {
    predicate Valid() { HostAlias(name) && PortText(port) }
    function Marker(): string { if port == "22" then name else "[" + name + "]:" + port }
  }

  predicate Hashed(pattern: string) {
    "|1|" <= pattern
  }

  function Bracketed(name: string): string {
    "[" + name + "]:22"
  }

  predicate IsBracketed(marker: string) {
    |marker| >= 5 && marker[0] == '[' && marker[|marker| - 4..] == "]:22"
  }

  predicate Matches(pattern: string, marker: string, crypto: Crypto) {
    if pattern == marker then true
    else if Hashed(pattern) then
      if crypto.hashed(pattern, marker) then true
      else if !("[" <= marker) && ':' !in marker then crypto.hashed(pattern, Bracketed(marker))
      else if IsBracketed(marker) then crypto.hashed(pattern, marker[1..|marker| - 4])
      else false
    else if IsBracketed(marker) then pattern == marker[1..|marker| - 4]
    else if !("[" <= marker) && ':' !in marker then pattern == Bracketed(marker)
    else false
  }

  /** A hashed name is the hash of at most one name. */
  ghost predicate CollisionFree(crypto: Crypto) {
    forall p, a, b :: crypto.hashed(p, a) && crypto.hashed(p, b) ==> a == b
  }

  lemma MarkerNotBracketed(h: Host)
    requires h.Valid()
    ensures !IsBracketed(h.Marker())
  {
    var m := h.Marker();
    if h.port == "22" {
      assert m[0] in h.name && HostChar(m[0]);
    } else {
      var p := h.port;
      assert m[|m| - |p|..] == p && m[|m| - |p| - 1] == ':';
      if |p| > 2 {
        assert p[|p| - 3] in p && m[|m| - 3] == p[|p| - 3] != ':';
      } else if |p| == 2 {
        assert m[|m| - 2..] == p;
        assert "]:22"[2..] == "22" && m[|m| - 4..][2..] == m[|m| - 2..];
      } else {
        assert m[|m| - 4..][2] == m[|m| - 2] == ':';
      }
    }
  }

  lemma MarkerPlain(h: Host)
    requires h.Valid()
    ensures var m := h.Marker();
      m != "" && m[0] != '#' && m[0] != '@' && m[0] != '|' && ',' !in m && Word(m)
  {
    var m := h.Marker();
    forall c | c in m ensures c == '[' || c == ']' || HostChar(c) {
      assert c in h.name || c in h.port || c == '[' || c == ']' || c == ':';
    }
    assert m[0] in m;
  }

  /** A pattern matches at most one marker. */
  lemma MatchesOne(pattern: string, h: Host, h': Host, crypto: Crypto)
    requires h.Valid() && h'.Valid() && CollisionFree(crypto)
    requires Matches(pattern, h.Marker(), crypto) && Matches(pattern, h'.Marker(), crypto)
    ensures h.Marker() == h'.Marker()
  {
    var (m, m') := (h.Marker(), h'.Marker());
    MarkerNotBracketed(h);
    MarkerNotBracketed(h');
    MarkerPlain(h);
    MarkerPlain(h');
    assert IsBracketed(Bracketed(m)) && IsBracketed(Bracketed(m'));
    assert Bracketed(m)[1..|m| + 1] == m && Bracketed(m')[1..|m'| + 1] == m';
    assert Hashed(pattern) ==> pattern[0] == '|';
  }

  // ----- lines -----

  datatype Entry = Entry(patterns: seq<string>, rest: seq<string>)

  /** A line that can bind keys: not a comment or a `@` marker line, and long enough. */
  function ParseLine(line: string): (r: Option<Entry>)
    ensures r.Some? ==> |r.value.rest| >= 2 && |r.value.patterns| > 0
  {
    var parts := Words(line);
    if |parts| < 3 || parts[0][0] == '#' || parts[0][0] == '@' then None
    else Some(Entry(Split(parts[0], ','), parts[1..]))
  }

  predicate Names(patterns: seq<string>, marker: string, crypto: Crypto) {
    exists p <- patterns :: Matches(p, marker, crypto)
  }

  function KeyLine(marker: string, kind: string, key: string): string {
    marker + " " + kind + " " + key
  }

  function Binding(line: string, marker: string, crypto: Crypto): Option<string> {
    match ParseLine(line)
    case None => None
    case Some(e) =>
      if Names(e.patterns, marker, crypto) && crypto.valid(e.rest[0], e.rest[1])
      then Some(KeyLine(marker, e.rest[0], e.rest[1])) else None
  }

  /** `read_bindings` on the lines of a file. */
  function Bindings(lines: seq<string>, marker: string, crypto: Crypto): seq<string> {
    if lines == [] then []
    else
      (match Binding(lines[0], marker, crypto) case None => [] case Some(b) => [b])
      + Bindings(lines[1..], marker, crypto)
  }

  function Remaining(patterns: seq<string>, marker: string, crypto: Crypto): (r: seq<string>)
    ensures forall p :: p in r <==> p in patterns && !Matches(p, marker, crypto)
    ensures |r| <= |patterns| && (|r| == |patterns| ==> !Names(patterns, marker, crypto))
  {
    if patterns == [] then []
    else if Matches(patterns[0], marker, crypto) then Remaining(patterns[1..], marker, crypto)
    else [patterns[0]] + Remaining(patterns[1..], marker, crypto)
  }

  /** What a confirmation leaves of a line. */
  function Rewrite(line: string, marker: string, crypto: Crypto): seq<string> {
    match ParseLine(line)
    case None => [line]
    case Some(e) =>
      var remaining := Remaining(e.patterns, marker, crypto);
      if |remaining| == |e.patterns| then [line]
      else if remaining == [] then []
      else [Join(remaining, ",") + " " + Join(e.rest, " ")]
  }

  function RewriteAll(lines: seq<string>, marker: string, crypto: Crypto): seq<string> {
    if lines == [] then [] else Rewrite(lines[0], marker, crypto) + RewriteAll(lines[1..], marker, crypto)
  }

  /** What would stay of the line's patterns can start a line: it is not empty and does not
      turn the line into a comment or a `@` line. */
  predicate Rewritable(line: string, marker: string, crypto: Crypto) {
    match ParseLine(line)
    case None => true
    case Some(e) =>
      var remaining := Remaining(e.patterns, marker, crypto);
      |remaining| == |e.patterns| || remaining == []
      || (var first := Join(remaining, ","); first != "" && first[0] != '#' && first[0] != '@')
  }

  lemma {:induction false} RemainingAll(patterns: seq<string>, marker: string, crypto: Crypto)
    requires !Names(patterns, marker, crypto)
    ensures Remaining(patterns, marker, crypto) == patterns
  {
    if patterns != [] {
      assert patterns[0] in patterns;
      RemainingAll(patterns[1..], marker, crypto);
    }
  }

  /** A rewritten line is read back as the patterns that remained, with the same key. */
  lemma RewrittenParses(line: string, marker: string, crypto: Crypto)
    requires ParseLine(line).Some? && Rewritable(line, marker, crypto)
    requires var e := ParseLine(line).value;
      var remaining := Remaining(e.patterns, marker, crypto);
      |remaining| < |e.patterns| && remaining != []
    ensures |Rewrite(line, marker, crypto)| == 1
    ensures var e := ParseLine(line).value;
      ParseLine(Rewrite(line, marker, crypto)[0]) == Some(Entry(Remaining(e.patterns, marker, crypto), e.rest))
  {
    var parts := Words(line);
    var e := ParseLine(line).value;
    var remaining := Remaining(e.patterns, marker, crypto);
    var first := Join(remaining, ",");
    JoinSplit(parts[0], ',');
    assert Word(parts[0]);
    forall p | p in remaining ensures ',' !in p && Spaceless(p) {
      assert p in e.patterns;
      PartOfSplit(parts[0], ',', p);
    }
    JoinSpaceless(remaining, ",");
    assert Word(first);
    var words := [first] + e.rest;
    assert Join(words, " ") == first + " " + Join(e.rest, " ") by { assert words[1..] == e.rest; }
    WordsJoin(words);
    SplitJoin(remaining, ',');
  }

  lemma {:induction false} PartOfSplit(s: string, c: char, p: string)
    requires p in Split(s, c)
    ensures forall x <- p :: x in s
  {
    if s != "" {
      var rest := Split(s[1..], c);
      if p in rest {
        PartOfSplit(s[1..], c, p);
      } else if s[0] != c {
        assert p == [s[0]] + rest[0];
        PartOfSplit(s[1..], c, rest[0]);
      }
    }
  }

  predicate Spaceless(s: string) {
    forall c <- s :: !Space(c)
  }

  lemma {:induction false} JoinSpaceless(parts: seq<string>, separator: string)
    requires Spaceless(separator) && forall p <- parts :: Spaceless(p)
    ensures Spaceless(Join(parts, separator))
  {
    if |parts| > 0 {
      assert parts[0] in parts;
      JoinSpaceless(parts[1..], separator);
    }
  }

  // ----- what a confirmation does to a line -----

  lemma RewriteDropsMarker(line: string, h: Host, crypto: Crypto)
    requires Rewritable(line, h.Marker(), crypto)
    ensures Bindings(Rewrite(line, h.Marker(), crypto), h.Marker(), crypto) == []
  {
    var m := h.Marker();
    if ParseLine(line).Some? {
      var e := ParseLine(line).value;
      var remaining := Remaining(e.patterns, m, crypto);
      if |remaining| < |e.patterns| && remaining != [] {
        RewrittenParses(line, m, crypto);
        assert !Names(remaining, m, crypto);
      }
    }
  }

  lemma RewriteKeepsOthers(line: string, h: Host, other: Host, crypto: Crypto)
    requires h.Valid() && other.Valid() && h.Marker() != other.Marker() && CollisionFree(crypto)
    requires Rewritable(line, h.Marker(), crypto)
    ensures Bindings(Rewrite(line, h.Marker(), crypto), other.Marker(), crypto)
         == Bindings([line], other.Marker(), crypto)
  {
    var (m, m') := (h.Marker(), other.Marker());
    if ParseLine(line).Some? {
      var e := ParseLine(line).value;
      var remaining := Remaining(e.patterns, m, crypto);
      forall p | p in e.patterns && Matches(p, m', crypto) ensures p in remaining {
        if Matches(p, m, crypto) { MatchesOne(p, h, other, crypto); }
      }
      assert Names(remaining, m', crypto) <==> Names(e.patterns, m', crypto);
      if |remaining| < |e.patterns| && remaining != [] {
        RewrittenParses(line, m, crypto);
      }
    }
  }

  /** The lines that bind nothing: comments, `@` lines and lines that are too short. */
  function Unparsed(lines: seq<string>): seq<string> {
    if lines == [] then []
    else (if ParseLine(lines[0]).None? then [lines[0]] else []) + Unparsed(lines[1..])
  }

  lemma RewriteKeepsUnparsed(line: string, h: Host, crypto: Crypto)
    requires Rewritable(line, h.Marker(), crypto)
    ensures Unparsed(Rewrite(line, h.Marker(), crypto)) == Unparsed([line])
  {
    var m := h.Marker();
    if ParseLine(line).Some? {
      var e := ParseLine(line).value;
      var remaining := Remaining(e.patterns, m, crypto);
      if |remaining| < |e.patterns| && remaining != [] {
        RewrittenParses(line, m, crypto);
      }
    }
  }

  /** Only the start of what remains decides: a line that binds both hosts still binds the other
      one afterwards exactly when its first remaining pattern does not make it a comment. */
  lemma SharedLineSurvives(line: string, h: Host, other: Host, crypto: Crypto)
    requires h.Valid() && other.Valid() && h.Marker() != other.Marker() && CollisionFree(crypto)
    requires Binding(line, h.Marker(), crypto).Some? && Binding(line, other.Marker(), crypto).Some?
    ensures Remaining(ParseLine(line).value.patterns, h.Marker(), crypto) != []
    ensures (Bindings(Rewrite(line, h.Marker(), crypto), other.Marker(), crypto)
             == Bindings([line], other.Marker(), crypto))
            <==> !Commenting(Remaining(ParseLine(line).value.patterns, h.Marker(), crypto)[0])
  {
    var (m, m') := (h.Marker(), other.Marker());
    var e := ParseLine(line).value;
    var remaining := Remaining(e.patterns, m, crypto);
    var p := SomeRemaining(e.patterns, h, other, crypto);
    var joined := Join(remaining, ",");
    JoinStarts(remaining, p);
    if Commenting(remaining[0]) {
      CommentedOut(joined, Join(e.rest, " "), m', crypto);
    } else {
      RewriteKeepsOthers(line, h, other, crypto);
    }
  }

  lemma LineParses(patterns: seq<string>, rest: seq<string>, first: string, line: string)
    requires |patterns| > 0 && |rest| >= 2 && forall w <- rest :: Word(w)
    requires first == Join(patterns, ",") && Word(first) && !Commenting(first) && forall p <- patterns :: ',' !in p
    requires line == first + " " + Join(rest, " ")
    ensures ParseLine(line) == Some(Entry(patterns, rest))
  {
    var words := [first] + rest;
    assert words[1..] == rest;
    WordsJoin(words);
    SplitJoin(patterns, ',');
  }

  /** A line that binds `a` and `b`, with a name between theirs that starts with `#`: confirming
      keys for `a` turns it into a comment, so that `b` loses its key. */
  lemma SharedLineLosesOther(line: string, crypto: Crypto)
    requires line == Join(["a", "#x", "b"], ",") + " " + Join(["ssh-rsa", "K"], " ")
    requires crypto.valid("ssh-rsa", "K")
    ensures Bindings([line], "b", crypto) == [KeyLine("b", "ssh-rsa", "K")]
    ensures Rewrite(line, "a", crypto) == [Join(["#x", "b"], ",") + " " + Join(["ssh-rsa", "K"], " ")]
    ensures Bindings(Rewrite(line, "a", crypto), "b", crypto) == []
  {
    var (names, rest) := (["a", "#x", "b"], ["ssh-rsa", "K"]);
    var first := Join(names, ",");
    SharedFirst(first);
    LineParses(names, rest, first, line);
    SharedRemaining(names, crypto);
    CommentedLoses(line, Entry(names, rest), ["#x", "b"], "a", "b", crypto);
  }

  lemma CommentedLoses(line: string, e: Entry, left: seq<string>, marker: string, other: string, crypto: Crypto)
    requires ParseLine(line) == Some(e) && left == Remaining(e.patterns, marker, crypto)
    requires 0 < |left| < |e.patterns| && Commenting(left[0])
    requires other in e.patterns && crypto.valid(e.rest[0], e.rest[1])
    ensures Bindings([line], other, crypto) == [KeyLine(other, e.rest[0], e.rest[1])]
    ensures Rewrite(line, marker, crypto) == [Join(left, ",") + " " + Join(e.rest, " ")]
    ensures Bindings(Rewrite(line, marker, crypto), other, crypto) == []
  {
    assert Matches(other, other, crypto);
    JoinStarts(left, left[0]);
    CommentedOut(Join(left, ","), Join(e.rest, " "), other, crypto);
  }

  lemma SharedFirst(first: string)
    requires first == Join(["a", "#x", "b"], ",")
    ensures Word(first) && !Commenting(first)
  {
    var names := ["a", "#x", "b"];
    JoinSpaceless(names, ",");
    assert first[0] == 'a';
  }

  lemma SharedRemaining(names: seq<string>, crypto: Crypto)
    requires names == ["a", "#x", "b"]
    ensures Remaining(names, "a", crypto) == ["#x", "b"]
  {
    assert names[1..] == ["#x", "b"] && names[1..][1..] == ["b"] && names[1..][1..][1..] == [];
    assert Remaining(["b"], "a", crypto) == ["b"];
    assert Remaining(["#x", "b"], "a", crypto) == ["#x", "b"];
  }

  predicate Commenting(pattern: string) {
    pattern != "" && (pattern[0] == '#' || pattern[0] == '@')
  }

  lemma SomeRemaining(patterns: seq<string>, h: Host, other: Host, crypto: Crypto) returns (p: string)
    requires h.Valid() && other.Valid() && h.Marker() != other.Marker() && CollisionFree(crypto)
    requires Names(patterns, h.Marker(), crypto) && Names(patterns, other.Marker(), crypto)
    ensures p in Remaining(patterns, h.Marker(), crypto) && p != ""
    ensures |Remaining(patterns, h.Marker(), crypto)| < |patterns|
  {
    p :| p in patterns && Matches(p, other.Marker(), crypto);
    if Matches(p, h.Marker(), crypto) { MatchesOne(p, h, other, crypto); }
    MatchedNotEmpty(p, other, crypto);
  }

  /** Joined with commas, the first part or a comma comes first. */
  lemma JoinStarts(parts: seq<string>, p: string)
    requires p in parts && p != ""
    ensures Join(parts, ",") != ""
    ensures Commenting(Join(parts, ",")) <==> Commenting(parts[0])
  {
    if |parts| > 1 {
      assert Join(parts, ",") == parts[0] + "," + Join(parts[1..], ",");
    }
  }

  lemma MatchedNotEmpty(p: string, h: Host, crypto: Crypto)
    requires h.Valid() && Matches(p, h.Marker(), crypto)
    ensures p != ""
  {
    MarkerPlain(h);
    MarkerNotBracketed(h);
  }

  lemma CommentedOut(first: string, rest: string, marker: string, crypto: Crypto)
    requires first != "" && (first[0] == '#' || first[0] == '@')
    ensures Bindings([first + " " + rest], marker, crypto) == []
  {
    var line := first + " " + rest;
    assert line[0] == first[0] && !Space(line[0]);
    var n := WordLength(line);
    assert n > 0 && Words(line)[0] == line[..n];
  }

  // ----- exactly what a confirmation does to any line -----

  /** Nothing but one empty name is left, so that the line starts with its first remaining word. */
  predicate Emptied(line: string, marker: string, crypto: Crypto) {
    ParseLine(line).Some? && Remaining(ParseLine(line).value.patterns, marker, crypto) == [""]
    && |ParseLine(line).value.patterns| > 1
  }

  /** What an emptied line is read as. */
  function Shifted(line: string): string
    requires ParseLine(line).Some?
  {
    Join(ParseLine(line).value.rest, " ")
  }

  /** After the rewrite the line does not bind the confirmed host. */
  predicate Drops(line: string, marker: string, crypto: Crypto) {
    Emptied(line, marker, crypto) ==> Binding(Shifted(line), marker, crypto).None?
  }

  /** The line binds another host but turns into a comment. */
  predicate Loses(line: string, marker: string, other: string, crypto: Crypto) {
    && Binding(line, other, crypto).Some?
    && var e := ParseLine(line).value;
    var remaining := Remaining(e.patterns, marker, crypto);
    0 < |remaining| < |e.patterns| && Commenting(remaining[0])
  }

  /** The line binds a host that it did not name before. */
  predicate Gains(line: string, marker: string, other: string, crypto: Crypto) {
    Emptied(line, marker, crypto) && Binding(Shifted(line), other, crypto).Some?
  }

  lemma JoinEmpty(parts: seq<string>)
    requires parts != []
    ensures Join(parts, ",") == "" <==> parts == [""]
    ensures Join(parts, ",") != "" ==> (Commenting(Join(parts, ",")) <==> Commenting(parts[0]))
  {
    if |parts| > 1 {
      assert Join(parts, ",") == parts[0] + "," + Join(parts[1..], ",");
    }
  }

  lemma BindingOfShifted(rest: string, marker: string, crypto: Crypto)
    ensures Bindings(["" + " " + rest], marker, crypto) == Bindings([rest], marker, crypto)
  {
    var line := "" + " " + rest;
    assert line[0] == ' ' && line[1..] == rest;
    assert Words(line) == Words(rest);
  }

  /** A line that is rewritten, in its three cases. */
  lemma RewrittenBinds(line: string, marker: string, other: string, crypto: Crypto)
    requires ParseLine(line).Some?
    requires var e := ParseLine(line).value;
      0 < |Remaining(e.patterns, marker, crypto)| < |e.patterns|
    ensures var e := ParseLine(line).value;
      var remaining := Remaining(e.patterns, marker, crypto);
      Bindings(Rewrite(line, marker, crypto), other, crypto)
      == if remaining == [""] then Bindings([Shifted(line)], other, crypto)
         else if Commenting(remaining[0]) || !Names(remaining, other, crypto) || !crypto.valid(e.rest[0], e.rest[1])
         then []
         else [KeyLine(other, e.rest[0], e.rest[1])]
  {
    var e := ParseLine(line).value;
    var remaining := Remaining(e.patterns, marker, crypto);
    var first := Join(remaining, ",");
    JoinEmpty(remaining);
    if remaining == [""] {
      BindingOfShifted(Shifted(line), other, crypto);
    } else if Commenting(remaining[0]) {
      CommentedOut(first, Join(e.rest, " "), other, crypto);
    } else {
      RewrittenParses(line, marker, crypto);
      BindingOfParsed(Rewrite(line, marker, crypto)[0], Entry(remaining, e.rest), other, crypto);
      assert Rewrite(line, marker, crypto) == [Rewrite(line, marker, crypto)[0]];
    }
  }

  lemma BindingOfParsed(line: string, e: Entry, marker: string, crypto: Crypto)
    requires ParseLine(line) == Some(e)
    ensures Bindings([line], marker, crypto)
         == if Names(e.patterns, marker, crypto) && crypto.valid(e.rest[0], e.rest[1])
            then [KeyLine(marker, e.rest[0], e.rest[1])] else []
  {
    assert [line][1..] == [];
  }

  lemma {:induction false} RemainingMeaning(patterns: seq<string>, marker: string, crypto: Crypto)
    ensures |Remaining(patterns, marker, crypto)| == |patterns| <==> !Names(patterns, marker, crypto)
    ensures !Names(Remaining(patterns, marker, crypto), marker, crypto)
  {
    if !Names(patterns, marker, crypto) { RemainingAll(patterns, marker, crypto); }
  }

  /** The rewritten line binds the confirmed host no more, unless it is emptied and shifted. */
  lemma RewriteDropsExactly(line: string, marker: string, crypto: Crypto)
    ensures Bindings(Rewrite(line, marker, crypto), marker, crypto) == [] <==> Drops(line, marker, crypto)
  {
    if ParseLine(line).Some? {
      var e := ParseLine(line).value;
      var remaining := Remaining(e.patterns, marker, crypto);
      RemainingMeaning(e.patterns, marker, crypto);
      if 0 < |remaining| < |e.patterns| { RewrittenBinds(line, marker, marker, crypto); }
    }
  }

  /** Another host loses what the line binds to it exactly if the line turns into a comment. */
  lemma RewriteLosesExactly(line: string, h: Host, other: Host, crypto: Crypto)
    requires h.Valid() && other.Valid() && h.Marker() != other.Marker() && CollisionFree(crypto)
    requires !Gains(line, h.Marker(), other.Marker(), crypto)
    ensures Bindings(Rewrite(line, h.Marker(), crypto), other.Marker(), crypto)
         == if Loses(line, h.Marker(), other.Marker(), crypto) then [] else Bindings([line], other.Marker(), crypto)
    ensures Loses(line, h.Marker(), other.Marker(), crypto) ==> |Bindings([line], other.Marker(), crypto)| == 1
  {
    var (m, m') := (h.Marker(), other.Marker());
    if ParseLine(line).Some? {
      var e := ParseLine(line).value;
      var remaining := Remaining(e.patterns, m, crypto);
      OtherNames(e.patterns, h, other, crypto);
      if 0 < |remaining| < |e.patterns| {
        RewrittenBinds(line, m, m', crypto);
      }
    }
  }

  /** The patterns that are left name another host exactly as before; an empty one names none. */
  lemma OtherNames(patterns: seq<string>, h: Host, other: Host, crypto: Crypto)
    requires h.Valid() && other.Valid() && h.Marker() != other.Marker() && CollisionFree(crypto)
    ensures var remaining := Remaining(patterns, h.Marker(), crypto);
      && (Names(remaining, other.Marker(), crypto) <==> Names(patterns, other.Marker(), crypto))
      && (remaining == [""] ==> !Names(patterns, other.Marker(), crypto))
  {
    var remaining := Remaining(patterns, h.Marker(), crypto);
    forall p | p in patterns && Matches(p, other.Marker(), crypto) ensures p in remaining && p != "" {
      if Matches(p, h.Marker(), crypto) { MatchesOne(p, h, other, crypto); }
      MatchedNotEmpty(p, other, crypto);
    }
  }

  predicate AllDrop(lines: seq<string>, marker: string, crypto: Crypto) {
    forall l <- lines :: Drops(l, marker, crypto)
  }

  lemma {:induction false} RewriteAllDropsExactly(lines: seq<string>, marker: string, crypto: Crypto)
    ensures Bindings(RewriteAll(lines, marker, crypto), marker, crypto) == [] <==> AllDrop(lines, marker, crypto)
  {
    if lines != [] {
      RewriteDropsExactly(lines[0], marker, crypto);
      RewriteAllDropsExactly(lines[1..], marker, crypto);
      BindingsAppend(Rewrite(lines[0], marker, crypto), RewriteAll(lines[1..], marker, crypto), marker, crypto);
      RewriteFirst(lines, marker, crypto);
      AllDropCons(lines, marker, crypto);
    }
  }

  lemma AllDropCons(lines: seq<string>, marker: string, crypto: Crypto)
    requires lines != []
    ensures AllDrop(lines, marker, crypto) <==> Drops(lines[0], marker, crypto) && AllDrop(lines[1..], marker, crypto)
  {
    assert lines == [lines[0]] + lines[1..];
  }

  /** A whole file, exactly: the confirmed host is bound to the reviewed keys and nothing else if
      and only if no line is emptied and then names the host by its next word. */
  lemma ConfirmedExactly(lines: seq<string>, h: Host, keys: seq<string>, crypto: Crypto)
    requires h.Valid() && KeysOf(keys, h, crypto) && CollisionFree(crypto)
    ensures Bindings(Confirmed(lines, h, keys, crypto), h.Marker(), crypto) == keys
            <==> AllDrop(lines, h.Marker(), crypto)
  {
    var rewritten := RewriteAll(lines, h.Marker(), crypto);
    RewriteAllDropsExactly(lines, h.Marker(), crypto);
    KeysBind(keys, h, h, crypto);
    BindingsAppend(rewritten, keys, h.Marker(), crypto);
    assert |Bindings(rewritten, h.Marker(), crypto) + keys| == |keys| ==> Bindings(rewritten, h.Marker(), crypto) == [];
  }

  predicate AnyLoses(lines: seq<string>, marker: string, other: string, crypto: Crypto) {
    exists l <- lines :: Loses(l, marker, other, crypto)
  }

  lemma {:induction false} RewriteAllLosesExactly(lines: seq<string>, h: Host, other: Host, crypto: Crypto)
    requires h.Valid() && other.Valid() && h.Marker() != other.Marker() && CollisionFree(crypto)
    requires forall l <- lines :: !Gains(l, h.Marker(), other.Marker(), crypto)
    ensures var (before, after) := (Bindings(lines, other.Marker(), crypto),
                                    Bindings(RewriteAll(lines, h.Marker(), crypto), other.Marker(), crypto));
      if AnyLoses(lines, h.Marker(), other.Marker(), crypto) then |after| < |before| else after == before
  {
    if lines != [] {
      var (m, m', first, rest) := (h.Marker(), other.Marker(), lines[0], lines[1..]);
      assert lines == [first] + rest && first in lines && forall l <- rest :: l in lines;
      RewriteLosesExactly(first, h, other, crypto);
      RewriteAllLosesExactly(rest, h, other, crypto);
      BindingsAppend(Rewrite(first, m, crypto), RewriteAll(rest, m, crypto), m', crypto);
      BindingsAppend([first], rest, m', crypto);
      assert AnyLoses(lines, m, m', crypto) <==> Loses(first, m, m', crypto) || AnyLoses(rest, m, m', crypto);
    }
  }

  /** A whole file, exactly, for another host: where no emptied line comes to name it, its bindings
      stay if and only if no line that binds it turns into a comment. */
  lemma OthersKeptExactly(lines: seq<string>, h: Host, keys: seq<string>, other: Host, crypto: Crypto)
    requires h.Valid() && other.Valid() && h.Marker() != other.Marker() && CollisionFree(crypto)
    requires KeysOf(keys, h, crypto) && forall l <- lines :: !Gains(l, h.Marker(), other.Marker(), crypto)
    ensures (Bindings(Confirmed(lines, h, keys, crypto), other.Marker(), crypto)
             == Bindings(lines, other.Marker(), crypto))
            <==> !AnyLoses(lines, h.Marker(), other.Marker(), crypto)
  {
    var rewritten := RewriteAll(lines, h.Marker(), crypto);
    RewriteAllLosesExactly(lines, h, other, crypto);
    KeysBind(keys, h, other, crypto);
    BindingsAppend(rewritten, keys, other.Marker(), crypto);
  }

  /** A host that can stand alone at the start of a line. */
  predicate PlainName(name: string) {
    Word(name) && ',' !in name && !Commenting(name) && !IsBracketed(name)
  }

  /** In `a, a ssh-rsa K` the first name is `a` and the second one is empty: after the first was
      dropped, the line names `a` again. */
  lemma EmptiedLineBindsAgain(name: string, kind: string, key: string, line: string, crypto: Crypto)
    requires PlainName(name) && Word(kind) && Word(key) && crypto.valid(kind, key)
    requires line == (name + ",") + " " + Join([name, kind, key], " ")
    ensures Emptied(line, name, crypto) && !Drops(line, name, crypto)
    ensures Bindings(Rewrite(line, name, crypto), name, crypto) == [KeyLine(name, kind, key)]
  {
    EmptiedParses(name, [name, kind, key], line);
    EmptiedRemaining(name, crypto);
    RewrittenBinds(line, name, name, crypto);
    ShiftedBinds(name, kind, key, crypto);
    RewriteDropsExactly(line, name, crypto);
  }

  lemma EmptiedParses(name: string, rest: seq<string>, line: string)
    requires PlainName(name) && |rest| >= 2 && forall w <- rest :: Word(w)
    requires line == (name + ",") + " " + Join(rest, " ")
    ensures ParseLine(line) == Some(Entry([name, ""], rest))
  {
    var first := name + ",";
    assert [name, ""][1..] == [""] && Join([name, ""], ",") == first by {
      assert first == name + "," + "";
    }
    LineParses([name, ""], rest, first, line);
  }

  lemma EmptiedRemaining(name: string, crypto: Crypto)
    requires PlainName(name)
    ensures Remaining([name, ""], name, crypto) == [""]
  {
    var names := [name, ""];
    assert names[1..] == [""] && [""][1..] == [];
    assert !Matches("", name, crypto);
    assert Remaining([""], name, crypto) == [""];
  }

  lemma ShiftedBinds(name: string, kind: string, key: string, crypto: Crypto)
    requires PlainName(name) && Word(kind) && Word(key) && crypto.valid(kind, key)
    ensures Bindings([Join([name, kind, key], " ")], name, crypto) == [KeyLine(name, kind, key)]
  {
    var words := [name, kind, key];
    WordsJoin(words);
    SplitWord(name, ',');
    assert words[1..] == [kind, key];
    assert name in [name] && Matches(name, name, crypto);
  }

  // ----- the whole file -----

  predicate AllRewritable(lines: seq<string>, marker: string, crypto: Crypto) {
    forall l <- lines :: Rewritable(l, marker, crypto)
  }

  lemma {:induction false} BindingsAppend(a: seq<string>, b: seq<string>, marker: string, crypto: Crypto)
    ensures Bindings(a + b, marker, crypto) == Bindings(a, marker, crypto) + Bindings(b, marker, crypto)
  {
    if a == [] {
      assert a + b == b;
    } else {
      assert (a + b)[1..] == a[1..] + b;
      BindingsAppend(a[1..], b, marker, crypto);
    }
  }

  lemma {:induction false} UnparsedAppend(a: seq<string>, b: seq<string>)
    ensures Unparsed(a + b) == Unparsed(a) + Unparsed(b)
  {
    if a == [] {
      assert a + b == b;
    } else {
      assert (a + b)[1..] == a[1..] + b;
      UnparsedAppend(a[1..], b);
    }
  }

  lemma {:induction false} RewriteAllDropsMarker(lines: seq<string>, h: Host, crypto: Crypto)
    requires AllRewritable(lines, h.Marker(), crypto)
    ensures Bindings(RewriteAll(lines, h.Marker(), crypto), h.Marker(), crypto) == []
    ensures Unparsed(RewriteAll(lines, h.Marker(), crypto)) == Unparsed(lines)
  {
    if lines != [] {
      var m := h.Marker();
      assert lines[0] in lines;
      RewriteDropsMarker(lines[0], h, crypto);
      RewriteKeepsUnparsed(lines[0], h, crypto);
      RewriteAllDropsMarker(lines[1..], h, crypto);
      BindingsAppend(Rewrite(lines[0], m, crypto), RewriteAll(lines[1..], m, crypto), m, crypto);
      UnparsedAppend(Rewrite(lines[0], m, crypto), RewriteAll(lines[1..], m, crypto));
      assert [lines[0]][1..] == [];
    }
  }

  lemma {:induction false} RewriteAllKeepsOthers(lines: seq<string>, h: Host, other: Host, crypto: Crypto)
    requires h.Valid() && other.Valid() && h.Marker() != other.Marker() && CollisionFree(crypto)
    requires AllRewritable(lines, h.Marker(), crypto)
    ensures Bindings(RewriteAll(lines, h.Marker(), crypto), other.Marker(), crypto)
         == Bindings(lines, other.Marker(), crypto)
  {
    if lines != [] {
      var (m, m') := (h.Marker(), other.Marker());
      assert lines[0] in lines;
      RewriteKeepsOthers(lines[0], h, other, crypto);
      RewriteAllKeepsOthers(lines[1..], h, other, crypto);
      BindingsAppend(Rewrite(lines[0], m, crypto), RewriteAll(lines[1..], m, crypto), m', crypto);
      assert lines == [lines[0]] + lines[1..];
      BindingsAppend([lines[0]], lines[1..], m', crypto);
    }
  }

  /** The reviewed keys: lines that bind exactly themselves to the host. */
  ghost predicate KeysOf(keys: seq<string>, h: Host, crypto: Crypto) {
    forall l <- keys :: KeyOf(l, h, crypto)
  }

  ghost predicate KeyOf(line: string, h: Host, crypto: Crypto) {
    exists kind, key :: Word(kind) && Word(key) && crypto.valid(kind, key) && line == KeyLine(h.Marker(), kind, key)
  }

  lemma KeyParses(h: Host, kind: string, key: string)
    requires h.Valid() && Word(kind) && Word(key)
    ensures ParseLine(KeyLine(h.Marker(), kind, key)) == Some(Entry([h.Marker()], [kind, key]))
  {
    var words := [h.Marker(), kind, key];
    MarkerPlain(h);
    assert words[1..] == [kind, key] && words[1..][1..] == [key];
    assert Join(words, " ") == KeyLine(h.Marker(), kind, key) by {
      assert Join([kind, key], " ") == kind + " " + Join([key], " ");
    }
    WordsJoin(words);
    SplitWord(h.Marker(), ',');
  }

  lemma MarkerMatchesSelf(h: Host, other: Host, crypto: Crypto)
    requires h.Valid() && other.Valid() && CollisionFree(crypto)
    ensures Names([h.Marker()], other.Marker(), crypto) <==> h.Marker() == other.Marker()
  {
    assert h.Marker() in [h.Marker()];
    if Matches(h.Marker(), other.Marker(), crypto) {
      MatchesOne(h.Marker(), h, other, crypto);
    }
  }

  lemma KeyBinds(line: string, h: Host, other: Host, crypto: Crypto)
    requires h.Valid() && other.Valid() && KeyOf(line, h, crypto) && CollisionFree(crypto)
    ensures Binding(line, other.Marker(), crypto) == if h.Marker() == other.Marker() then Some(line) else None
    ensures ParseLine(line).Some? && IsLine(line)
  {
    var kind, key :| Word(kind) && Word(key) && crypto.valid(kind, key) && line == KeyLine(h.Marker(), kind, key);
    KeyParses(h, kind, key);
    MarkerMatchesSelf(h, other, crypto);
    MarkerPlain(h);
    KeyLineIsLine(h.Marker(), kind, key);
  }

  lemma KeyLineIsLine(marker: string, kind: string, key: string)
    requires Word(marker) && Word(kind) && Word(key)
    ensures IsLine(KeyLine(marker, kind, key))
  {
    WordEndsLine(marker + " " + kind + " ", key);
  }

  /** White space within, but no line break, and a word last. */
  lemma WordEndsLine(s: string, w: string)
    requires Word(w) && '\n' !in s
    ensures IsLine(s + w)
  {
    assert Space('\n') && Space('\r');
    assert w[|w| - 1] in w && (s + w)[|s + w| - 1] == w[|w| - 1];
  }

  lemma {:induction false} WordsMakeLine(words: seq<string>)
    requires |words| > 0 && forall w <- words :: Word(w)
    ensures IsLine(Join(words, " "))
  {
    if |words| == 1 {
      WordEndsLine("", words[0]);
      assert "" + words[0] == words[0];
    } else {
      WordsMakeLine(words[1..]);
      assert Space('\n') && Word(words[0]);
      var rest := Join(words[1..], " ");
      assert rest != "" by { JoinNotEmpty(words[1..]); }
      assert Join(words, " ") == words[0] + " " + rest;
    }
  }

  lemma JoinNotEmpty(words: seq<string>)
    requires |words| > 0 && forall w <- words :: Word(w)
    ensures Join(words, " ") != ""
  {
    assert Word(words[0]);
  }

  lemma {:induction false} KeysBind(keys: seq<string>, h: Host, other: Host, crypto: Crypto)
    requires h.Valid() && other.Valid() && KeysOf(keys, h, crypto) && CollisionFree(crypto)
    ensures Bindings(keys, other.Marker(), crypto) == if h.Marker() == other.Marker() then keys else []
  {
    if keys != [] {
      KeysCons(keys, h, crypto);
      KeyBinds(keys[0], h, other, crypto);
      KeysBind(keys[1..], h, other, crypto);
      BindingsAppend([keys[0]], keys[1..], other.Marker(), crypto);
      assert keys == [keys[0]] + keys[1..];
    }
  }

  lemma KeysCons(keys: seq<string>, h: Host, crypto: Crypto)
    requires keys != [] && KeysOf(keys, h, crypto)
    ensures KeyOf(keys[0], h, crypto) && KeysOf(keys[1..], h, crypto)
  {
    assert keys[0] in keys && forall k <- keys[1..] :: k in keys;
  }

  lemma {:induction false} KeysAreLines(keys: seq<string>, h: Host, crypto: Crypto)
    requires h.Valid() && KeysOf(keys, h, crypto) && CollisionFree(crypto)
    ensures Unparsed(keys) == [] && forall l <- keys :: IsLine(l)
  {
    if keys != [] {
      assert keys[0] in keys && KeysOf(keys[1..], h, crypto);
      KeyBinds(keys[0], h, h, crypto);
      KeysAreLines(keys[1..], h, crypto);
    }
  }

  // ----- files that stay rewritable -----

  /** No pattern of the line is empty or would start a comment. */
  predicate Strict(line: string) {
    match ParseLine(line)
    case None => true
    case Some(e) => forall p <- e.patterns :: p != "" && !Commenting(p)
  }

  lemma StrictRewritable(line: string, marker: string, crypto: Crypto)
    requires Strict(line)
    ensures Rewritable(line, marker, crypto)
    ensures forall l <- Rewrite(line, marker, crypto) :: Strict(l)
  {
    if ParseLine(line).Some? {
      var e := ParseLine(line).value;
      var remaining := Remaining(e.patterns, marker, crypto);
      if |remaining| < |e.patterns| && remaining != [] {
        JoinStarts(remaining, remaining[0]);
        RewrittenParses(line, marker, crypto);
      }
    }
  }

  predicate WellFormed(lines: seq<string>) {
    forall l <- lines :: IsLine(l) && Strict(l)
  }

  lemma RewriteIsLine(line: string, marker: string, crypto: Crypto)
    requires IsLine(line)
    ensures forall l <- Rewrite(line, marker, crypto) :: IsLine(l)
  {
    if ParseLine(line).Some? {
      var e := ParseLine(line).value;
      var remaining := Remaining(e.patterns, marker, crypto);
      if |remaining| < |e.patterns| && remaining != [] {
        RemainingSpaceless(line, marker, crypto);
        SpacelessThenWords(Join(remaining, ","), e.rest);
      }
    }
  }

  lemma SpacelessThenWords(first: string, words: seq<string>)
    requires Spaceless(first) && |words| > 0 && forall w <- words :: Word(w)
    ensures IsLine(first + " " + Join(words, " "))
  {
    var rest := Join(words, " ");
    WordsMakeLine(words);
    JoinNotEmpty(words);
    NoBreak(first);
    LineEndsLine(first, rest);
  }

  lemma NoBreak(s: string)
    requires Spaceless(s)
    ensures '\n' !in s
  {
    assert Space('\n');
  }

  lemma LineEndsLine(first: string, rest: string)
    requires '\n' !in first && IsLine(rest) && rest != ""
    ensures IsLine(first + " " + rest)
  {
    var whole := first + " " + rest;
    assert whole[|whole| - 1] == rest[|rest| - 1];
    assert forall c <- whole :: c in first || c == ' ' || c in rest;
  }

  lemma RemainingSpaceless(line: string, marker: string, crypto: Crypto)
    requires ParseLine(line).Some?
    ensures Spaceless(Join(Remaining(ParseLine(line).value.patterns, marker, crypto), ","))
  {
    var e := ParseLine(line).value;
    var host := Words(line)[0];
    forall p | p in Remaining(e.patterns, marker, crypto) ensures Spaceless(p) {
      PartOfSplit(host, ',', p);
    }
    JoinSpaceless(Remaining(e.patterns, marker, crypto), ",");
  }

  lemma {:induction false} RewriteAllWellFormed(lines: seq<string>, marker: string, crypto: Crypto)
    requires WellFormed(lines)
    ensures WellFormed(RewriteAll(lines, marker, crypto)) && AllRewritable(lines, marker, crypto)
  {
    if lines != [] {
      assert lines[0] in lines;
      StrictRewritable(lines[0], marker, crypto);
      RewriteIsLine(lines[0], marker, crypto);
      RewriteAllWellFormed(lines[1..], marker, crypto);
    }
  }

  lemma {:induction false} KeysWellFormed(keys: seq<string>, h: Host, crypto: Crypto)
    requires h.Valid() && KeysOf(keys, h, crypto) && CollisionFree(crypto)
    ensures WellFormed(keys)
  {
    forall l | l in keys ensures IsLine(l) && Strict(l) {
      var kind, key :| Word(kind) && Word(key) && crypto.valid(kind, key) && l == KeyLine(h.Marker(), kind, key);
      KeyParses(h, kind, key);
      MarkerPlain(h);
      KeyLineIsLine(h.Marker(), kind, key);
    }
  }

  // ----- one confirmation -----

  /** The file after a confirmation. */
  function Confirmed(lines: seq<string>, h: Host, keys: seq<string>, crypto: Crypto): seq<string> {
    RewriteAll(lines, h.Marker(), crypto) + keys
  }

  /** Only the bindings of the confirmed host change, and they become exactly the keys; what is
      not a binding stays, in order. */
  lemma ConfirmedMeaning(lines: seq<string>, h: Host, keys: seq<string>, other: Host, crypto: Crypto)
    requires h.Valid() && other.Valid() && KeysOf(keys, h, crypto) && CollisionFree(crypto) && WellFormed(lines)
    ensures Bindings(Confirmed(lines, h, keys, crypto), other.Marker(), crypto)
         == if other.Marker() == h.Marker() then keys else Bindings(lines, other.Marker(), crypto)
    ensures Unparsed(Confirmed(lines, h, keys, crypto)) == Unparsed(lines)
    ensures WellFormed(Confirmed(lines, h, keys, crypto))
  {
    var rewritten := RewriteAll(lines, h.Marker(), crypto);
    RewriteAllWellFormed(lines, h.Marker(), crypto);
    RewriteAllDropsMarker(lines, h, crypto);
    if other.Marker() != h.Marker() {
      RewriteAllKeepsOthers(lines, h, other, crypto);
    }
    KeysBind(keys, h, other, crypto);
    KeysAreLines(keys, h, crypto);
    KeysWellFormed(keys, h, crypto);
    BindingsAppend(rewritten, keys, other.Marker(), crypto);
    UnparsedAppend(rewritten, keys);
  }

  datatype HostKeyReview = HostKeyReview(host: Host, keys: seq<string>, previous: seq<string>, source: bool,
                                         managedBefore: seq<string>)

  class TrustStore {
    var managed: Option<string>
    var user: Option<string>
    ghost var faults: nat // reads, writes and locks that failed
    const crypto: Crypto

    constructor (managed: Option<string>, user: Option<string>, crypto: Crypto)
      ensures this.managed == managed && this.user == user && this.crypto == crypto
    {
      this.managed, this.user, this.crypto := managed, user, crypto;
    }

    function ManagedLines(): seq<string>
      reads this
    {
      Lines(if managed.Some? then managed.value else "")
    }

    function UserLines(): seq<string>
      reads this
    {
      Lines(if user.Some? then user.value else "")
    }

    /** Reads one of the files, if the file system lets it. */
    method Read(managedFile: bool, readable: bool) returns (r: Result<seq<string>, ()>)
      modifies this`faults
      ensures faults == old(faults) + if readable then 0 else 1
      ensures r.Ok? <==> readable
      ensures r.Ok? ==> r.value == if managedFile then ManagedLines() else UserLines()
    {
      r := if readable then Ok(if managedFile then ManagedLines() else UserLines()) else Err(());
      if !readable { faults := faults + 1; }
    }

    method Lock() returns (ok: bool)
      modifies this`faults
      ensures faults == old(faults) + if ok then 0 else 1
    {
      ok := *;
      if !ok { faults := faults + 1; }
    }

    /** Replaces the managed file in one step; a failure may still have replaced it. */
    method AtomicWrite(content: string) returns (ok: bool)
      modifies this
      ensures user == old(user) && (managed == Some(content) || (!ok && managed == old(managed)))
      ensures faults == old(faults) + if ok then 0 else 1
    {
      ok := *;
      if !ok { faults := faults + 1; }
      var done: bool := *;
      if ok || done { managed := Some(content); }
    }
  }

  method ReadBindings(files: TrustStore, managedFile: bool, marker: string, readable: bool)
    returns (r: Result<seq<string>, ()>)
    modifies files`faults
    ensures files.faults == old(files.faults) + if readable then 0 else 1
    ensures r.Ok? <==> readable
    ensures r.Ok? ==>
              r.value == Bindings(if managedFile then files.ManagedLines() else files.UserLines(), marker, files.crypto)
  {
    var lines := files.Read(managedFile, readable);
    r := if lines.Ok? then Ok(Bindings(lines.value, marker, files.crypto)) else Err(());
  }

  /** The line of a scanned key, if it is one of the host. */
  function Scanned(line: string, h: Host, crypto: Crypto): Option<string> {
    var parts := Words(line);
    if |parts| < 3 || parts[0][0] == '#' || (parts[0] != h.name && parts[0] != h.Marker())
        || !crypto.valid(parts[1], parts[2])
    then None else Some(KeyLine(h.Marker(), parts[1], parts[2]))
  }

  ghost predicate IsScanned(lines: seq<string>, key: string, h: Host, crypto: Crypto) {
    exists l :: l in lines && Scanned(l, h, crypto) == Some(key)
  }

  /** The keys among the scanned lines; what follows kind and key tells repeated ones apart. */
  method NormalizeKeys(lines: seq<string>, h: Host, crypto: Crypto) returns (keys: seq<string>)
    ensures KeysOf(keys, h, crypto)
    ensures forall k :: k in keys <==> IsScanned(lines, k, h, crypto)
  {
    keys := [];
    var seen: set<seq<string>> := {};
    for i := 0 to |lines|
      invariant forall w <- seen :: |w| >= 2 && KeyLine(h.Marker(), w[0], w[1]) in keys
      invariant forall k :: k in keys <==> IsScanned(lines[..i], k, h, crypto)
    {
      ScannedNext(lines, i, h, crypto);
      var scanned := Scanned(lines[i], h, crypto);
      if scanned.Some? {
        var rest := RestOf(lines[i], h, crypto);
        if rest !in seen {
          seen := seen + {rest};
          keys := keys + [scanned.value];
        }
      }
    }
    assert lines[..|lines|] == lines;
    ScannedKeys(lines, keys, h, crypto);
  }

  /** Kind, key and whatever follows. */
  function RestOf(line: string, h: Host, crypto: Crypto): (rest: seq<string>)
    requires Scanned(line, h, crypto).Some?
    ensures |rest| >= 2 && Scanned(line, h, crypto) == Some(KeyLine(h.Marker(), rest[0], rest[1]))
  {
    Words(line)[1..]
  }

  lemma ScannedNext(lines: seq<string>, i: nat, h: Host, crypto: Crypto)
    requires i < |lines|
    ensures forall k :: IsScanned(lines[..i + 1], k, h, crypto)
                        <==> IsScanned(lines[..i], k, h, crypto) || Scanned(lines[i], h, crypto) == Some(k)
  {
    var next := lines[..i + 1];
    assert next == lines[..i] + [lines[i]];
    assert lines[i] in next && forall l <- lines[..i] :: l in next;
  }

  lemma ScannedKeys(lines: seq<string>, keys: seq<string>, h: Host, crypto: Crypto)
    requires forall k <- keys :: IsScanned(lines, k, h, crypto)
    ensures KeysOf(keys, h, crypto)
  {
    forall k | k in keys ensures KeyOf(k, h, crypto) {
      var l :| l in lines && Scanned(l, h, crypto) == Some(k);
      assert Word(Words(l)[1]) && Word(Words(l)[2]);
    }
  }

  method Review(files: TrustStore, h: Host, scanned: seq<string>, source: bool) returns (r: Result<HostKeyReview, ()>)
    modifies files`faults
    ensures files.faults >= old(files.faults)
    ensures files.faults == old(files.faults) ==>
              (r.Ok? <==> h.Valid() && exists k :: IsScanned(scanned, k, h, files.crypto))
    ensures r.Ok? ==> forall k :: k in r.value.keys <==> IsScanned(scanned, k, h, files.crypto)
    ensures r.Ok? ==> h.Valid() && r.value.host == h && r.value.source == source && r.value.keys != []
    ensures r.Ok? ==> KeysOf(r.value.keys, h, files.crypto)
    ensures r.Ok? ==> r.value.managedBefore == Bindings(files.ManagedLines(), h.Marker(), files.crypto)
    ensures r.Ok? ==> r.value.previous == if source then Bindings(files.UserLines(), h.Marker(), files.crypto) else []
  {
    if !h.Valid() { return Err(()); }
    var keys := NormalizeKeys(scanned, h, files.crypto);
    if keys == [] { return Err(()); }
    assert keys[0] in keys;
    var captured := Capture(files, h.Marker(), source);
    r := if captured.Err? then Err(()) else Ok(HostKeyReview(h, keys, captured.value.0, source, captured.value.1));
  }

  /** What is bound now, in the user's file if there is one and in the managed one. */
  method Capture(files: TrustStore, marker: string, source: bool) returns (r: Result<(seq<string>, seq<string>), ()>)
    modifies files`faults
    ensures files.faults >= old(files.faults) + (if r.Ok? then 0 else 1)
    ensures r.Ok? ==> r.value.0 == if source then Bindings(files.UserLines(), marker, files.crypto) else []
    ensures r.Ok? ==> r.value.1 == Bindings(files.ManagedLines(), marker, files.crypto)
  {
    var previous: Result<seq<string>, ()> := Ok([]);
    var userReadable: bool, managedReadable: bool := *, *;
    if source { previous := ReadBindings(files, false, marker, userReadable); }
    if previous.Err? { return Err(()); }
    var before := ReadBindings(files, true, marker, managedReadable);
    r := if before.Ok? then Ok((previous.value, before.value)) else Err(());
  }

  /** Yes exactly when the file is readable and binds the reviewed keys. */
  method IsConfirmed(files: TrustStore, review: HostKeyReview, readable: bool) returns (r: bool)
    modifies files`faults
    ensures r <==>
            && readable
            && ToSet(Bindings(files.ManagedLines(), review.host.Marker(), files.crypto)) == ToSet(review.keys)
  {
    var bindings := ReadBindings(files, true, review.host.Marker(), readable);
    r := bindings.Ok? && ToSet(bindings.value) == ToSet(review.keys);
  }

  /** The keys are bound already, or both files still have what the review captured. */
  predicate Applicable(review: HostKeyReview, managed: seq<string>, user: seq<string>, crypto: Crypto) {
    var current := ToSet(Bindings(managed, review.host.Marker(), crypto));
    || current == ToSet(review.keys)
    || (current == ToSet(review.managedBefore)
        && (review.source ==> ToSet(Bindings(user, review.host.Marker(), crypto)) == ToSet(review.previous)))
  }

  /** Writes the reviewed keys over exactly what the review had captured; when nothing fails, an
      error means that something else was bound by then. */
  method Confirm(files: TrustStore, review: HostKeyReview) returns (r: Result<(), ()>)
    requires review.host.Valid() && review.keys != [] && KeysOf(review.keys, review.host, files.crypto)
    requires CollisionFree(files.crypto)
    modifies files
    ensures files.user == old(files.user) && files.faults >= old(files.faults)
    ensures files.faults == old(files.faults) ==>
              (r.Ok? <==> Applicable(review, old(files.ManagedLines()), old(files.UserLines()), files.crypto))
    ensures r.Ok? ==>
              || Written(old(files.ManagedLines()), review, files.ManagedLines(), files.crypto)
              || (files.managed == old(files.managed)
                  && ToSet(Bindings(files.ManagedLines(), review.host.Marker(), files.crypto)) == ToSet(review.keys))
    ensures files.managed != old(files.managed) ==>
              && Written(old(files.ManagedLines()), review, files.ManagedLines(), files.crypto)
              && ToSet(Bindings(old(files.ManagedLines()), review.host.Marker(), files.crypto))
                 == ToSet(review.managedBefore)
              && ToSet(Bindings(old(files.ManagedLines()), review.host.Marker(), files.crypto)) != ToSet(review.keys)
              && (review.source ==>
                  ToSet(Bindings(files.UserLines(), review.host.Marker(), files.crypto)) == ToSet(review.previous))
  {
    var locked := files.Lock();
    if !locked { return Err(()); }
    var marker := review.host.Marker();
    var userReadable: bool, managedReadable: bool := *, *;
    var current := ReadBindings(files, true, marker, managedReadable);
    if current.Err? { return Err(()); }
    if ToSet(current.value) == ToSet(review.keys) { return Ok(()); }
    if ToSet(current.value) != ToSet(review.managedBefore) { return Err(()); }
    if review.source {
      var previous := ReadBindings(files, false, marker, userReadable);
      if previous.Err? || ToSet(previous.value) != ToSet(review.previous) { return Err(()); }
    }
    r := WriteConfirmed(files, review);
  }

  method RewriteLines(lines: seq<string>, marker: string, crypto: Crypto) returns (updated: seq<string>)
    ensures updated == RewriteAll(lines, marker, crypto)
  {
    updated := [];
    for i := 0 to |lines|
      invariant RewriteAll(lines, marker, crypto) == updated + RewriteAll(lines[i..], marker, crypto)
    {
      RewriteNext(lines, i, updated, marker, crypto);
      updated := updated + Rewrite(lines[i], marker, crypto);
    }
    assert lines[|lines|..] == [];
  }

  lemma RewriteNext(lines: seq<string>, i: nat, updated: seq<string>, marker: string, crypto: Crypto)
    requires i < |lines|
    ensures updated + RewriteAll(lines[i..], marker, crypto)
         == updated + Rewrite(lines[i], marker, crypto) + RewriteAll(lines[i + 1..], marker, crypto)
  {
    assert lines[i..][0] == lines[i] && lines[i..][1..] == lines[i + 1..];
    RewriteFirst(lines[i..], marker, crypto);
  }

  lemma RewriteFirst(lines: seq<string>, marker: string, crypto: Crypto)
    requires lines != []
    ensures RewriteAll(lines, marker, crypto)
         == Rewrite(lines[0], marker, crypto) + RewriteAll(lines[1..], marker, crypto)
  {
  }

  /** The file was written: it holds the confirmed lines, and it binds exactly the reviewed keys to
      the host if and only if every old line dropped it. */
  ghost predicate Written(before: seq<string>, review: HostKeyReview, after: seq<string>, crypto: Crypto) {
    && after == StripAll(Confirmed(before, review.host, review.keys, crypto))
    && (Bindings(after, review.host.Marker(), crypto) == review.keys
        <==> AllDrop(before, review.host.Marker(), crypto))
  }

  method WriteConfirmed(files: TrustStore, review: HostKeyReview) returns (r: Result<(), ()>)
    requires review.host.Valid() && review.keys != [] && KeysOf(review.keys, review.host, files.crypto)
    requires CollisionFree(files.crypto)
    modifies files
    ensures files.user == old(files.user) && files.faults >= old(files.faults)
    ensures files.faults == old(files.faults) ==> r.Ok?
    ensures r.Ok? || files.managed != old(files.managed) ==>
              Written(old(files.ManagedLines()), review, files.ManagedLines(), files.crypto)
  {
    var readable: bool := *;
    var content := files.Read(true, readable);
    if content.Err? { return Err(()); }
    var updated := RewriteLines(content.value, review.host.Marker(), files.crypto);
    updated := updated + review.keys;
    ReadBack(files, content.value, review, updated);
    var written := files.AtomicWrite(Join(updated, "\n") + "\n");
    r := if written then Ok(()) else Err(());
  }

  /** What is written is read back as the confirmed lines. */
  lemma ReadBack(files: TrustStore, lines: seq<string>, review: HostKeyReview, updated: seq<string>)
    requires review.host.Valid() && review.keys != [] && KeysOf(review.keys, review.host, files.crypto)
    requires CollisionFree(files.crypto) && lines == files.ManagedLines()
    requires updated == Confirmed(lines, review.host, review.keys, files.crypto)
    ensures Written(lines, review, Lines(Join(updated, "\n") + "\n"), files.crypto)
  {
    LinesBreakless(if files.managed.Some? then files.managed.value else "");
    RewriteAllBreakless(lines, review.host.Marker(), files.crypto);
    KeysAreLines(review.keys, review.host, files.crypto);
    LinesJoin(updated);
    StrippedBindings(updated, review.host.Marker(), files.crypto);
    ConfirmedExactly(lines, review.host, review.keys, files.crypto);
  }

  lemma {:induction false} RewriteAllBreakless(lines: seq<string>, marker: string, crypto: Crypto)
    requires forall l <- lines :: '\n' !in l
    ensures forall l <- RewriteAll(lines, marker, crypto) :: '\n' !in l
  {
    if lines != [] {
      assert lines[0] in lines && forall l <- lines[1..] :: l in lines;
      RewriteBreakless(lines[0], marker, crypto);
      RewriteAllBreakless(lines[1..], marker, crypto);
    }
  }

  lemma RewriteBreakless(line: string, marker: string, crypto: Crypto)
    requires '\n' !in line
    ensures forall l <- Rewrite(line, marker, crypto) :: '\n' !in l
  {
    if ParseLine(line).Some? {
      var e := ParseLine(line).value;
      var remaining := Remaining(e.patterns, marker, crypto);
      if |remaining| < |e.patterns| && remaining != [] {
        RemainingSpaceless(line, marker, crypto);
        SpacelessThenWords(Join(remaining, ","), e.rest);
      }
    }
  }

  lemma {:induction false} StrippedBindings(lines: seq<string>, marker: string, crypto: Crypto)
    ensures Bindings(StripAll(lines), marker, crypto) == Bindings(lines, marker, crypto)
  {
    if lines != [] {
      var first, rest := lines[0], lines[1..];
      StrippedBinds(first, marker, crypto);
      StrippedBindings(rest, marker, crypto);
      StripCons(lines);
      BindingsAppend([StripReturn(first)], StripAll(rest), marker, crypto);
      BindingsAppend([first], rest, marker, crypto);
      assert lines == [first] + rest;
    }
  }

  lemma StripCons(lines: seq<string>)
    requires lines != []
    ensures StripAll(lines) == [StripReturn(lines[0])] + StripAll(lines[1..])
  {
  }

  lemma StrippedBinds(line: string, marker: string, crypto: Crypto)
    ensures Bindings([StripReturn(line)], marker, crypto) == Bindings([line], marker, crypto)
  {
    StrippedParses(line);
    assert Binding(StripReturn(line), marker, crypto) == Binding(line, marker, crypto);
  }

  lemma StrippedParses(line: string)
    ensures ParseLine(StripReturn(line)) == ParseLine(line)
  {
    if line != "" && line[|line| - 1] == '\r' {
      assert line == line[..|line| - 1] + ['\r'];
      WordsTrailing(line[..|line| - 1], '\r');
    }
  }

  /** In a well-formed file every line drops the host, and the confirmed lines stay as they are. */
  lemma WellFormedWritten(before: seq<string>, review: HostKeyReview, after: seq<string>, crypto: Crypto)
    requires WellFormed(before) && CollisionFree(crypto) && Written(before, review, after, crypto)
    requires review.host.Valid() && KeysOf(review.keys, review.host, crypto)
    ensures after == Confirmed(before, review.host, review.keys, crypto)
    ensures Bindings(after, review.host.Marker(), crypto) == review.keys
  {
    ConfirmedMeaning(before, review.host, review.keys, review.host, crypto);
    StripLines(Confirmed(before, review.host, review.keys, crypto));
  }

  // ----- interleaved reviews -----

  ghost predicate Commits(before: seq<string>, review: HostKeyReview, after: seq<string>, crypto: Crypto) {
    && ToSet(Bindings(before, review.host.Marker(), crypto)) == ToSet(review.managedBefore)
    && ToSet(Bindings(before, review.host.Marker(), crypto)) != ToSet(review.keys)
    && after == Confirmed(before, review.host, review.keys, crypto)
  }

  /** Confirmations of any reviews, opened at any time, in the order in which they held the lock;
      each commits or changes nothing. */
  ghost predicate Run(states: seq<seq<string>>, reviews: seq<HostKeyReview>, crypto: Crypto) {
    && |states| == |reviews| + 1 && WellFormed(states[0]) && CollisionFree(crypto)
    && forall i :: 0 <= i < |reviews| ==>
                     && reviews[i].host.Valid() && KeysOf(reviews[i].keys, reviews[i].host, crypto)
                     && (states[i + 1] == states[i] || Commits(states[i], reviews[i], states[i + 1], crypto))
  }

  lemma CommitWellFormed(before: seq<string>, r: HostKeyReview, after: seq<string>, crypto: Crypto)
    requires WellFormed(before) && CollisionFree(crypto) && r.host.Valid() && KeysOf(r.keys, r.host, crypto)
    requires Commits(before, r, after, crypto)
    ensures WellFormed(after)
  {
    ConfirmedMeaning(before, r.host, r.keys, r.host, crypto);
  }

  lemma {:induction false} RunWellFormed(states: seq<seq<string>>, reviews: seq<HostKeyReview>, i: nat, crypto: Crypto)
    requires Run(states, reviews, crypto) && i < |states|
    ensures WellFormed(states[i])
  {
    if i > 0 {
      RunWellFormed(states, reviews, i - 1, crypto);
      if states[i] != states[i - 1] {
        CommitWellFormed(states[i - 1], reviews[i - 1], states[i], crypto);
      }
    }
  }

  /** The keys bound to one host as a register: a step leaves them, or is a commit for that host
      that found exactly what its review had captured and left exactly what was reviewed. */
  ghost predicate CasStep(before: set<string>, review: HostKeyReview, marker: string, after: set<string>) {
    || after == before
    || (review.host.Marker() == marker && before == ToSet(review.managedBefore) && after == ToSet(review.keys))
  }

  ghost predicate Register(sets: seq<set<string>>, reviews: seq<HostKeyReview>, marker: string) {
    && |sets| == |reviews| + 1
    && forall i :: 0 <= i < |reviews| ==> CasStep(sets[i], reviews[i], marker, sets[i + 1])
  }

  function SetsOf(states: seq<seq<string>>, marker: string, crypto: Crypto): seq<set<string>> {
    seq(|states|, i requires 0 <= i < |states| => ToSet(Bindings(states[i], marker, crypto)))
  }

  lemma CommitIsCas(before: seq<string>, r: HostKeyReview, after: seq<string>, h: Host, crypto: Crypto)
    requires WellFormed(before) && CollisionFree(crypto) && h.Valid() && r.host.Valid()
             && KeysOf(r.keys, r.host, crypto)
    requires Commits(before, r, after, crypto)
    ensures CasStep(ToSet(Bindings(before, h.Marker(), crypto)), r, h.Marker(),
                    ToSet(Bindings(after, h.Marker(), crypto)))
  {
    ConfirmedMeaning(before, r.host, r.keys, h, crypto);
  }

  lemma StepIsCas(states: seq<seq<string>>, reviews: seq<HostKeyReview>, i: nat, h: Host, marker: string,
                  crypto: Crypto)
    requires Run(states, reviews, crypto) && h.Valid() && i < |reviews| && marker == h.Marker()
    ensures CasStep(SetsOf(states, marker, crypto)[i], reviews[i], marker, SetsOf(states, marker, crypto)[i + 1])
  {
    RunWellFormed(states, reviews, i, crypto);
    if states[i + 1] != states[i] {
      CommitIsCas(states[i], reviews[i], states[i + 1], h, crypto);
    }
  }

  /** Every interleaving of confirmations is, for each host, a run of its own register. */
  lemma RunRefinesRegister(states: seq<seq<string>>, reviews: seq<HostKeyReview>, h: Host, crypto: Crypto)
    requires Run(states, reviews, crypto) && h.Valid()
    ensures Register(SetsOf(states, h.Marker(), crypto), reviews, h.Marker())
  {
    var marker := h.Marker();
    var sets := SetsOf(states, marker, crypto);
    forall i | 0 <= i < |reviews| ensures CasStep(sets[i], reviews[i], marker, sets[i + 1]) {
      StepIsCas(states, reviews, i, h, marker, crypto);
    }
  }

  lemma {:induction false} RegisterStays(sets: seq<set<string>>, i: nat, j: nat)
    requires i <= j < |sets| && forall k :: i <= k < j ==> sets[k + 1] == sets[k]
    ensures sets[j] == sets[i]
  {
    if i < j { RegisterStays(sets, i, j - 1); }
  }

  /** The commits that change a host's keys form a chain: each replaces exactly the keys its own
      review had captured, and those are the keys that the change before it wrote. */
  lemma CommitsChain(sets: seq<set<string>>, reviews: seq<HostKeyReview>, marker: string, i: nat, j: nat)
    requires Register(sets, reviews, marker) && i < j < |reviews|
    requires sets[i + 1] != sets[i] && sets[j + 1] != sets[j]
    requires forall k :: i < k < j ==> sets[k + 1] == sets[k]
    ensures reviews[i].host.Marker() == reviews[j].host.Marker() == marker
    ensures ToSet(reviews[j].managedBefore) == sets[j] == ToSet(reviews[i].keys)
    ensures sets[j + 1] == ToSet(reviews[j].keys)
  {
    assert CasStep(sets[i], reviews[i], marker, sets[i + 1]) && CasStep(sets[j], reviews[j], marker, sets[j + 1]);
    RegisterStays(sets, i + 1, j);
  }
}
