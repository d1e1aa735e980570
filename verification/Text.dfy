/** Splitting and joining text, with the round trips the line and argument formats rest on. */
module Text {

  function Join(parts: seq<string>, separator: string): string {
    if |parts| == 0 then ""
    else if |parts| == 1 then parts[0]
    else parts[0] + separator + Join(parts[1..], separator)
  }

  /** All the pieces between separators: always one more than there are separators. */
  function Split(s: string, c: char): (parts: seq<string>)
    ensures |parts| > 0
  {
    if s == "" then [""]
    else
      var rest := Split(s[1..], c);
      if s[0] == c then [""] + rest else [[s[0]] + rest[0]] + rest[1..]
  }

  lemma {:induction false} SplitWord(s: string, c: char)
    requires c !in s
    ensures Split(s, c) == [s]
  {
    if s != "" {
      assert s[0] in s && [s[0]] + s[1..] == s;
      SplitWord(s[1..], c);
    }
  }

  lemma {:induction false} SplitAppend(s: string, t: string, c: char)
    requires c !in s
    ensures Split(s + [c] + t, c) == [s] + Split(t, c)
  {
    if s == "" {
      assert (s + [c] + t)[1..] == t;
    } else {
      assert s[0] in s && [s[0]] + s[1..] == s;
      assert (s + [c] + t)[1..] == s[1..] + [c] + t;
      SplitAppend(s[1..], t, c);
    }
  }

  lemma {:induction false} SplitJoin(parts: seq<string>, c: char)
    requires |parts| > 0 && forall p <- parts :: c !in p
    ensures Split(Join(parts, [c]), c) == parts
  {
    if |parts| == 1 {
      SplitWord(parts[0], c);
    } else {
      var rest := parts[1..];
      assert parts[0] in parts && forall p <- rest :: p in parts;
      SplitAppend(parts[0], Join(rest, [c]), c);
      SplitJoin(rest, c);
      assert parts == [parts[0]] + rest;
    }
  }

  lemma {:induction false} JoinSplit(s: string, c: char)
    ensures Join(Split(s, c), [c]) == s && forall p <- Split(s, c) :: c !in p
  {
    if s != "" {
      var rest := Split(s[1..], c);
      JoinSplit(s[1..], c);
      if s[0] == c {
        assert ([""] + rest)[1..] == rest;
      } else {
        var first := [[s[0]] + rest[0]] + rest[1..];
        assert first[1..] == rest[1..];
      }
    }
  }

  function WithFirst(x: char, parts: seq<string>, c: char): seq<string>
    requires parts != []
  {
    if x == c then [""] + parts else [[x] + parts[0]] + parts[1..]
  }

  lemma SplitFirst(x: char, rest: string, c: char)
    ensures Split([x] + rest, c) == WithFirst(x, Split(rest, c), c)
  {
    assert ([x] + rest)[1..] == rest;
  }

  lemma WithFirstConcat(x: char, a: seq<string>, b: seq<string>, c: char)
    requires a != []
    ensures WithFirst(x, a + b, c) == WithFirst(x, a, c) + b
  {
    assert (a + b)[0] == a[0] && (a + b)[1..] == a[1..] + b;
  }

  lemma {:induction false} SplitConcat(s: string, t: string, c: char)
    ensures Split(s + [c] + t, c) == Split(s, c) + Split(t, c)
  {
    if s == "" {
      assert s + [c] + t == [c] + t;
      SplitFirst(c, t, c);
    } else {
      assert s + [c] + t == [s[0]] + (s[1..] + [c] + t) && s == [s[0]] + s[1..];
      SplitFirst(s[0], s[1..] + [c] + t, c);
      SplitFirst(s[0], s[1..], c);
      SplitConcat(s[1..], t, c);
      WithFirstConcat(s[0], Split(s[1..], c), Split(t, c), c);
    }
  }

  lemma {:induction false} JoinConcat(a: seq<string>, b: seq<string>, separator: string)
    requires a != [] && b != []
    ensures Join(a + b, separator) == Join(a, separator) + separator + Join(b, separator)
  {
    if |a| == 1 {
      assert (a + b)[1..] == b;
    } else {
      assert (a + b)[1..] == a[1..] + b;
      JoinConcat(a[1..], b, separator);
    }
  }

  // ----- lines -----

  function StripReturn(line: string): string {
    if line != "" && line[|line| - 1] == '\r' then line[..|line| - 1] else line
  }

  function StripAll(lines: seq<string>): seq<string> {
    seq(|lines|, i requires 0 <= i < |lines| => StripReturn(lines[i]))
  }

  /** The lines of a text: a last line break ends the last line and starts no new one, and only
      what a line break ends loses a carriage return. */
  function Lines(content: string): seq<string> {
    var parts := Split(content, '\n');
    var (ended, rest) := (parts[..|parts| - 1], parts[|parts| - 1]);
    StripAll(ended) + if rest == "" then [] else [rest]
  }

  lemma LinesBreakless(content: string)
    ensures forall l <- Lines(content) :: '\n' !in l
  {
    var parts := Split(content, '\n');
    JoinSplit(content, '\n');
    var lines := Lines(content);
    forall i | 0 <= i < |lines| ensures '\n' !in lines[i] {
      assert parts[i] in parts;
    }
  }

  predicate IsLine(line: string) {
    '\n' !in line && (line != "" ==> line[|line| - 1] != '\r')
  }

  /** What is written line by line is read back, except for a carriage return at a line's end. */
  lemma LinesJoin(lines: seq<string>)
    requires |lines| > 0 && forall l <- lines :: '\n' !in l
    ensures Lines(Join(lines, "\n") + "\n") == StripAll(lines)
  {
    var ended := lines + [""];
    JoinLast(lines, "\n");
    SplitJoin(ended, '\n');
    assert ended[..|ended| - 1] == lines;
  }

  lemma StripLines(lines: seq<string>)
    requires forall l <- lines :: IsLine(l)
    ensures StripAll(lines) == lines
  {
    forall i | 0 <= i < |lines| ensures StripReturn(lines[i]) == lines[i] {
      assert lines[i] in lines;
    }
  }

  lemma {:induction false} JoinLast(lines: seq<string>, separator: string)
    requires |lines| > 0
    ensures Join(lines + [""], separator) == Join(lines, separator) + separator
  {
    assert (lines + [""])[1..] == lines[1..] + [""];
    if |lines| > 1 { JoinLast(lines[1..], separator); }
  }

  // ----- words -----

  /** White space as the Unicode property has it. */
  predicate Space(c: char) {
    || '\t' <= c <= '\r' || c == ' ' || c == '\U{85}' || c == '\U{A0}' || c == '\U{1680}'
    || '\U{2000}' <= c <= '\U{200A}' || c == '\U{2028}' || c == '\U{2029}' || c == '\U{202F}'
    || c == '\U{205F}' || c == '\U{3000}'
  }

  /** Control characters as the Unicode property has it. */
  predicate Control(c: char) {
    c < ' ' || '\U{7F}' <= c <= '\U{9F}'
  }

  predicate Word(s: string) {
    s != "" && forall c <- s :: !Space(c)
  }

  function WordLength(s: string): (n: nat)
    ensures n <= |s| && (forall c <- s[..n] :: !Space(c)) && (n < |s| ==> Space(s[n]))
  {
    if s == "" || Space(s[0]) then 0
    else
      var n := WordLength(s[1..]);
      assert s[..n + 1] == [s[0]] + s[1..][..n];
      n + 1
  }

  function Words(s: string): (words: seq<string>)
    ensures forall w <- words :: Word(w) && |w| <= |s|
    decreases |s|
  {
    if s == "" then []
    else if Space(s[0]) then Words(s[1..])
    else [s[..WordLength(s)]] + Words(s[WordLength(s)..])
  }

  lemma {:induction false} WordLengthOf(w: string, t: string)
    requires (forall c <- w :: !Space(c)) && (t != "" ==> Space(t[0]))
    ensures WordLength(w + t) == |w|
  {
    if w != "" {
      assert (w + t)[1..] == w[1..] + t;
      WordLengthOf(w[1..], t);
    }
  }

  lemma {:induction false} WordsJoin(words: seq<string>)
    requires forall w <- words :: Word(w)
    ensures Words(Join(words, " ")) == words
  {
    if words != [] {
      var w := words[0];
      var t := if |words| == 1 then "" else " " + Join(words[1..], " ");
      assert Join(words, " ") == w + t;
      assert Word(w);
      WordLengthOf(w, t);
      assert (w + t)[0] == w[0] && (w + t)[..|w|] == w && (w + t)[|w|..] == t;
      if |words| > 1 {
        WordsJoin(words[1..]);
        assert t[1..] == Join(words[1..], " ");
      }
    }
  }

  /** White space at the end changes no word. */
  lemma {:induction false} WordsTrailing(s: string, c: char)
    requires Space(c)
    ensures Words(s + [c]) == Words(s)
    decreases |s|
  {
    var t := s + [c];
    if s == "" {
      assert t[1..] == "";
    } else if Space(s[0]) {
      assert t[1..] == s[1..] + [c];
      WordsTrailing(s[1..], c);
    } else {
      var n := WordLength(s);
      assert s[..n] + (s[n..] + [c]) == t && t[0] == s[0];
      WordLengthOf(s[..n], s[n..] + [c]);
      assert t[..n] == s[..n] && t[n..] == s[n..] + [c];
      WordsTrailing(s[n..], c);
    }
  }

  function TrimLeft(s: string): string {
    if s != "" && Space(s[0]) then TrimLeft(s[1..]) else s
  }

  function TrimRight(s: string): string {
    if s != "" && Space(s[|s| - 1]) then TrimRight(s[..|s| - 1]) else s
  }

  function Trim(s: string): string {
    TrimRight(TrimLeft(s))
  }

  // ----- numbers -----

  function Digit(n: nat): char
    requires n < 10
  {
    '0' + n as char
  }

  function Decimal(n: nat): (s: string)
    ensures s != "" && forall c <- s :: '0' <= c <= '9'
  {
    if n < 10 then [Digit(n)] else Decimal(n / 10) + [Digit(n % 10)]
  }

  lemma {:induction false} DecimalInjective(m: nat, n: nat)
    requires Decimal(m) == Decimal(n)
    ensures m == n
  {
    var (a, b) := (Decimal(m), Decimal(n));
    assert a[|a| - 1] == Digit(m % 10) && b[|b| - 1] == Digit(n % 10);
    if m >= 10 && n >= 10 {
      assert a[..|a| - 1] == Decimal(m / 10) && b[..|b| - 1] == Decimal(n / 10);
      DecimalInjective(m / 10, n / 10);
    }
  }
}
