/** Quoting the arguments of an external SSH command, and the two sets of rules by which the
    command line is taken apart again. */
module Quoting {
  import opened Common
  import opened Text

  predicate SafeChar(c: char) {
    || 'a' <= c <= 'z' || 'A' <= c <= 'Z' || '0' <= c <= '9'
    || c == '.' || c == '_' || c == '-' || c == '/' || c == ':' || c == '=' || c == '~'
  }

  predicate Safe(value: string) {
    forall c <- value :: SafeChar(c)
  }

  function Repeat(c: char, n: nat): (r: string)
    ensures |r| == n && forall i :: 0 <= i < n ==> r[i] == c
  {
    seq(n, _ => c)
  }

  // ----- quoting -----

  /** The text between the quotes, after `n` backslashes that are still to be written. */
  function Escaped(value: string, n: nat): string {
    if value == "" then Repeat('\\', 2 * n)
    else if value[0] == '\\' then Escaped(value[1..], n + 1)
    else if value[0] == '"' then Repeat('\\', 2 * n + 1) + "\"" + Escaped(value[1..], 0)
    else Repeat('\\', n) + [value[0]] + Escaped(value[1..], 0)
  }

  /** Every single quote closed, escaped and opened again. */
  function Reopened(value: string): string {
    if value == "" then ""
    else (if value[0] == '\'' then "'\\''" else [value[0]]) + Reopened(value[1..])
  }

  function Quoted(value: string, windows: bool): string {
    if Safe(value) then value
    else if windows then "\"" + Escaped(value, 0) + "\""
    else "'" + Reopened(value) + "'"
  }

  method QuoteCommandArgument(value: string, windows: bool) returns (r: string)
    ensures r == Quoted(value, windows)
  {
    if Safe(value) { return value; }
    if !windows { return "'" + Reopened(value) + "'"; }
    var quoted := "\"";
    var backslashes: nat := 0;
    for i := 0 to |value|
      invariant quoted + Escaped(value[i..], backslashes) == "\"" + Escaped(value, 0)
    {
      var ch := value[i];
      assert value[i..][0] == ch && value[i..][1..] == value[i + 1..];
      if ch == '\\' {
        backslashes := backslashes + 1;
      } else if ch == '"' {
        quoted := quoted + Repeat('\\', 2 * backslashes + 1) + "\"";
        backslashes := 0;
      } else {
        quoted := quoted + Repeat('\\', backslashes) + [ch];
        backslashes := 0;
      }
    }
    r := quoted + Repeat('\\', 2 * backslashes) + "\"";
  }

  // ----- taking a command line apart -----

  predicate Blank(c: char) {
    c == ' ' || c == '\t'
  }

  function Backslashes(s: string): (n: nat)
    ensures n <= |s| && (n < |s| ==> s[n] != '\\') && forall i :: 0 <= i < n ==> s[i] == '\\'
  {
    if s == "" || s[0] != '\\' then 0 else 1 + Backslashes(s[1..])
  }

  /** One argument by the rules of the Microsoft C runtime, and the text after it. Backslashes
      are literal unless a double quote follows: then two stand for one, and an odd one makes
      the quote literal. */
  function MsvcArgument(s: string, quoted: bool): (r: (string, string))
    ensures |r.1| <= |s|
    decreases |s|
  {
    var n := Backslashes(s);
    if n == |s| then (s, "")
    else if s[n] == '"' then
      var half := Repeat('\\', n / 2);
      if n % 2 == 1 then
        var (more, rest) := MsvcArgument(s[n + 1..], quoted);
        (half + "\"" + more, rest)
      else if quoted && n + 1 < |s| && s[n + 1] == '"' then
        var (more, rest) := MsvcArgument(s[n + 2..], quoted);
        (half + "\"" + more, rest)
      else
        var (more, rest) := MsvcArgument(s[n + 1..], !quoted);
        (half + more, rest)
    else if !quoted && Blank(s[n]) then (s[..n], s[n..])
    else
      var (more, rest) := MsvcArgument(s[n + 1..], quoted);
      (s[..n + 1] + more, rest)
  }

  /** One word by the quote removal of POSIX.1-2017 XCU sections 2.2.1, 2.2.2 and 2.6.7, without
      double quotes, and the text after it. */
  function PosixWord(s: string, quoted: bool): (r: (string, string))
    ensures |r.1| <= |s|
    decreases |s|
  {
    if s == "" then ("", "")
    else if s[0] == '\'' then PosixWord(s[1..], !quoted)
    else if !quoted && Blank(s[0]) then ("", s)
    else if !quoted && s[0] == '\\' && |s| > 1 then
      var (more, rest) := PosixWord(s[2..], quoted);
      ([s[1]] + more, rest)
    else
      var (more, rest) := PosixWord(s[1..], quoted);
      ([s[0]] + more, rest)
  }

  function Argument(s: string, windows: bool): (r: (string, string))
    ensures |r.1| <= |s|
  {
    if windows then MsvcArgument(s, false) else PosixWord(s, false)
  }

  /** The first step always takes at least one character. */
  lemma ArgumentAdvances(s: string, windows: bool)
    requires s != "" && !Blank(s[0])
    ensures |Argument(s, windows).1| < |s|
  {
  }

  function Tokens(s: string, windows: bool): seq<string>
    decreases |s|
  {
    if s == "" then []
    else if Blank(s[0]) then Tokens(s[1..], windows)
    else
      ArgumentAdvances(s, windows);
      var (token, rest) := Argument(s, windows);
      [token] + Tokens(rest, windows)
  }

  // ----- the round trip -----

  predicate Ended(t: string) {
    t == "" || Blank(t[0])
  }

  lemma {:induction false} BackslashesOf(n: nat, t: string)
    requires t == "" || t[0] != '\\'
    ensures Backslashes(Repeat('\\', n) + t) == n
  {
    var s := Repeat('\\', n) + t;
    if n == 0 {
      assert s == t;
    } else {
      assert s[1..] == Repeat('\\', n - 1) + t;
      BackslashesOf(n - 1, t);
    }
  }

  lemma {:induction false} EscapedReadsBack(value: string, n: nat, t: string)
    requires Ended(t)
    ensures Reads(Escaped(value, n) + ("\"" + t), Repeat('\\', n) + value, t)
    decreases |value|
  {
    if value == "" {
      EscapedEnds(n, t);
      assert Repeat('\\', n) + "" == Repeat('\\', n);
    } else if value[0] == '\\' {
      EscapedReadsBack(value[1..], n + 1, t);
      assert Repeat('\\', n + 1) + value[1..] == Repeat('\\', n) + value;
    } else {
      EscapedReadsBack(value[1..], 0, t);
      assert Repeat('\\', 0) + value[1..] == value[1..];
      assert value == [value[0]] + value[1..];
      if value[0] == '"' {
        EscapedQuote(n, Escaped(value[1..], 0), "\"" + t, value[1..], t);
      } else {
        EscapedChar(n, value[0], Escaped(value[1..], 0), "\"" + t, value[1..], t);
      }
    }
  }

  /** Inside quotes, `s` starts with the rest of an argument that is `token`, and `t` follows. */
  predicate Reads(s: string, token: string, t: string) {
    MsvcArgument(s, true) == (token, t)
  }

  lemma EscapedEnds(n: nat, t: string)
    requires Ended(t)
    ensures MsvcArgument(Repeat('\\', 2 * n) + ("\"" + t), true) == (Repeat('\\', n), t)
  {
    var s := Repeat('\\', 2 * n) + ("\"" + t);
    BackslashesOf(2 * n, "\"" + t);
    assert s[2 * n] == '"' && s[2 * n + 1..] == t;
    ArgumentEnds(t);
    assert Repeat('\\', 2 * n / 2) + "" == Repeat('\\', n);
  }

  lemma ArgumentEnds(t: string)
    requires Ended(t)
    ensures MsvcArgument(t, false) == ("", t)
  {
    assert Backslashes(t) == 0;
    assert t[..0] == "" && t[0..] == t;
  }

  lemma EscapedQuote(n: nat, body: string, end: string, token: string, t: string)
    requires Reads(body + end, token, t)
    ensures Reads(Repeat('\\', 2 * n + 1) + "\"" + body + end, Repeat('\\', n) + ("\"" + token), t)
  {
    var more := body + end;
    var s := Repeat('\\', 2 * n + 1) + ("\"" + more);
    assert s == Repeat('\\', 2 * n + 1) + "\"" + body + end;
    BackslashesOf(2 * n + 1, "\"" + more);
    assert s[2 * n + 2..] == more;
    assert Repeat('\\', n) + "\"" + token == Repeat('\\', n) + ("\"" + token);
  }

  lemma EscapedChar(n: nat, c: char, body: string, end: string, token: string, t: string)
    requires c != '\\' && c != '"' && Reads(body + end, token, t)
    ensures Reads(Repeat('\\', n) + [c] + body + end, Repeat('\\', n) + ([c] + token), t)
  {
    var more := body + end;
    var s := Repeat('\\', n) + ([c] + more);
    assert s == Repeat('\\', n) + [c] + body + end;
    BackslashesOf(n, [c] + more);
    assert s[n + 1..] == more && s[..n + 1] == Repeat('\\', n) + [c];
    assert Repeat('\\', n) + [c] + token == Repeat('\\', n) + ([c] + token);
  }

  lemma {:induction false} SafeReadsBack(value: string, t: string, windows: bool)
    requires Safe(value) && Ended(t)
    ensures Argument(value + t, windows) == (value, t)
  {
    var s := value + t;
    if value == "" {
      assert s == t && Backslashes(t) == 0;
    } else {
      assert value[0] in value && SafeChar(value[0]);
      assert s[1..] == value[1..] + t && s[0] == value[0];
      SafeReadsBack(value[1..], t, windows);
      assert s[..1] == [value[0]] && value == [value[0]] + value[1..];
    }
  }

  lemma {:induction false} ReopenedReadsBack(value: string, t: string)
    requires Ended(t)
    ensures PosixWord(Reopened(value) + "'" + t, true) == (value, t)
  {
    var s := Reopened(value) + "'" + t;
    if value == "" {
      assert s[1..] == t;
    } else {
      var more := Reopened(value[1..]) + "'" + t;
      ReopenedReadsBack(value[1..], t);
      if value[0] == '\'' {
        QuoteReopened(more);
        assert s == "'\\''" + more;
      } else {
        assert s[1..] == more;
      }
      assert value == [value[0]] + value[1..];
    }
  }

  lemma QuoteReopened(more: string)
    ensures PosixWord("'\\''" + more, true) == ("'" + PosixWord(more, true).0, PosixWord(more, true).1)
  {
    var s := "'\\''" + more;
    var second := s[1..];
    assert second[0] == '\\' && second[1] == '\'';
    var third := second[2..];
    assert third[0] == '\'' && third[1..] == more;
    assert PosixWord(third, false) == PosixWord(more, true);
    assert PosixWord(second, false) == ("'" + PosixWord(more, true).0, PosixWord(more, true).1);
  }

  lemma FirstQuote(s: string)
    requires s != "" && s[0] == '"'
    ensures MsvcArgument(s, false) == MsvcArgument(s[1..], true)
  {
    assert Backslashes(s) == 0;
    var (more, rest) := MsvcArgument(s[1..], true);
    assert Repeat('\\', 0 / 2) + more == more;
  }

  /** A quoted argument is read back, and the reading stops right after it. */
  lemma QuotedReadsBack(value: string, t: string, windows: bool)
    requires Ended(t)
    ensures Argument(Quoted(value, windows) + t, windows) == (value, t)
  {
    if Safe(value) {
      SafeReadsBack(value, t, windows);
    } else if windows {
      WindowsReadsBack(value, t);
    } else {
      PosixReadsBack(value, t);
    }
  }

  lemma WindowsReadsBack(value: string, t: string)
    requires Ended(t) && !Safe(value)
    ensures MsvcArgument(Quoted(value, true) + t, false) == (value, t)
  {
    var s := Quoted(value, true) + t;
    assert s[1..] == Escaped(value, 0) + ("\"" + t);
    EscapedReadsBack(value, 0, t);
    assert Repeat('\\', 0) + value == value;
    FirstQuote(s);
  }

  lemma PosixReadsBack(value: string, t: string)
    requires Ended(t) && !Safe(value)
    ensures PosixWord(Quoted(value, false) + t, false) == (value, t)
  {
    assert (Quoted(value, false) + t)[1..] == Reopened(value) + "'" + t;
    ReopenedReadsBack(value, t);
  }

  // ----- whole command lines -----

  function QuoteAll(arguments: seq<string>, windows: bool): seq<string> {
    seq(|arguments|, i requires 0 <= i < |arguments| => Quoted(arguments[i], windows))
  }

  function CommandLine(arguments: seq<string>, windows: bool): string {
    Join(QuoteAll(arguments, windows), " ")
  }

  function NonEmpty(arguments: seq<string>): seq<string> {
    if arguments == [] then []
    else (if arguments[0] == "" then [] else [arguments[0]]) + NonEmpty(arguments[1..])
  }

  lemma QuotedStarts(value: string, windows: bool)
    requires value != ""
    ensures Quoted(value, windows) != "" && !Blank(Quoted(value, windows)[0])
  {
    assert Safe(value) ==> value[0] in value && SafeChar(value[0]);
  }

  lemma OneToken(value: string, t: string, windows: bool)
    requires Ended(t)
    ensures Tokens(Quoted(value, windows) + t, windows) == (if value == "" then [] else [value]) + Tokens(t, windows)
  {
    var s := Quoted(value, windows) + t;
    if value == "" {
      assert s == t;
    } else {
      QuotedStarts(value, windows);
      QuotedReadsBack(value, t, windows);
    }
  }

  /** Taken apart, a command line gives back its arguments, except that empty ones are lost. */
  lemma {:induction false} CommandLineReadsBack(arguments: seq<string>, windows: bool)
    ensures Tokens(CommandLine(arguments, windows), windows) == NonEmpty(arguments)
  {
    if arguments != [] {
      var rest := arguments[1..];
      var t := if rest == [] then "" else " " + CommandLine(rest, windows);
      assert QuoteAll(arguments, windows)[1..] == QuoteAll(rest, windows);
      assert CommandLine(arguments, windows) == Quoted(arguments[0], windows) + t;
      OneToken(arguments[0], t, windows);
      if rest != [] {
        CommandLineReadsBack(rest, windows);
        assert t[1..] == CommandLine(rest, windows);
      }
    }
  }

  lemma {:induction false} NonEmptyIsAll(arguments: seq<string>)
    ensures |NonEmpty(arguments)| <= |arguments|
    ensures NonEmpty(arguments) == arguments <==> "" !in arguments
  {
    if arguments != [] { NonEmptyIsAll(arguments[1..]); }
  }

  /** The round trip holds exactly for lists without an empty argument. */
  lemma QuotingRoundTrip(arguments: seq<string>, windows: bool)
    ensures Tokens(CommandLine(arguments, windows), windows) == arguments <==> "" !in arguments
  {
    CommandLineReadsBack(arguments, windows);
    NonEmptyIsAll(arguments);
  }

  // ----- the remote and its connector proxy -----

  predicate ValidScalar(value: string) {
    value != "" && '\r' !in value && '\n' !in value && '\0' !in value
  }

  const CONNECTOR_FLAG: string := "--run-ssh-connector"

  class RcloneRemote {
    var options: seq<(string, string)>

    constructor (options: seq<(string, string)>)
      ensures this.options == options
    {
      this.options := options;
    }

    /** Adds the external command as the `ssh` option; it reads back as the arguments. */
    method PushExternalSsh(arguments: seq<string>, windows: bool) returns (ok: bool)
      modifies this
      ensures ok <==> forall a <- arguments :: ValidScalar(a)
      ensures !ok ==> options == old(options)
      ensures ok ==> |options| == |old(options)| + 1 && options[..|old(options)|] == old(options)
      ensures ok ==> options[|old(options)|].0 == "ssh" && Tokens(options[|old(options)|].1, windows) == arguments
    {
      var quoted := [];
      for i := 0 to |arguments|
        invariant forall a <- arguments[..i] :: ValidScalar(a)
        invariant quoted == QuoteAll(arguments[..i], windows) && options == old(options)
      {
        if !ValidScalar(arguments[i]) { return false; }
        var q := QuoteCommandArgument(arguments[i], windows);
        quoted := quoted + [q];
      }
      assert arguments[..|arguments|] == arguments;
      QuotingRoundTrip(arguments, windows);
      options := options + [("ssh", Join(quoted, " "))];
      ok := true;
    }

    /** Puts the proxy in front of the first `ssh` option. */
    method WrapExternalSsh(proxy: string, windows: bool) returns (ok: bool)
      modifies this
      ensures ok <==> FirstSsh(old(options)).None? || ValidScalar(proxy)
      ensures FirstSsh(old(options)).None? || !ok ==> options == old(options)
      ensures ok && FirstSsh(old(options)).Some? ==>
                var i := FirstSsh(old(options)).value;
                options == old(options)[i := ("ssh", Wrapped(proxy, old(options)[i].1, windows))]
    {
      var i := 0;
      while i < |options| && options[i].0 != "ssh"
        invariant 0 <= i <= |options| && forall j :: 0 <= j < i ==> options[j].0 != "ssh"
      {
        i := i + 1;
      }
      FirstSshAt(options, i);
      if i == |options| { return true; }
      if !ValidScalar(proxy) { return false; }
      var quoted := QuoteCommandArgument(proxy, windows);
      options := options[i := ("ssh", quoted + " " + CONNECTOR_FLAG + " " + options[i].1)];
      ok := true;
    }
  }

  function FirstSsh(options: seq<(string, string)>): (r: Option<nat>)
    ensures r.Some? ==> r.value < |options| && options[r.value].0 == "ssh"
  {
    if options == [] then None
    else if options[0].0 == "ssh" then Some(0)
    else match FirstSsh(options[1..]) case None => None case Some(i) => Some(i + 1)
  }

  lemma {:induction false} FirstSshAt(options: seq<(string, string)>, i: nat)
    requires i <= |options| && forall j :: 0 <= j < i ==> options[j].0 != "ssh"
    requires i < |options| ==> options[i].0 == "ssh"
    ensures FirstSsh(options) == if i < |options| then Some(i) else None
  {
    if options != [] && i > 0 {
      FirstSshAt(options[1..], i - 1);
    }
  }

  function WrappedBy(proxy: string, flag: string, ssh: string, windows: bool): string {
    Quoted(proxy, windows) + " " + flag + " " + ssh
  }

  function Wrapped(proxy: string, ssh: string, windows: bool): string {
    WrappedBy(proxy, CONNECTOR_FLAG, ssh, windows)
  }

  lemma FlagSafe()
    ensures Safe(CONNECTOR_FLAG) && CONNECTOR_FLAG != ""
  {
  }

  lemma CommandLineCons(first: string, rest: seq<string>, windows: bool)
    requires rest != []
    ensures CommandLine([first] + rest, windows) == Quoted(first, windows) + (" " + CommandLine(rest, windows))
  {
    var quoted := QuoteAll([first] + rest, windows);
    assert quoted[1..] == QuoteAll(rest, windows) && quoted[0] == Quoted(first, windows);
    assert quoted[0] + " " + CommandLine(rest, windows) == quoted[0] + (" " + CommandLine(rest, windows));
  }

  lemma WrappedIsCommandLine(proxy: string, flag: string, arguments: seq<string>, windows: bool)
    requires arguments != [] && Safe(flag)
    ensures WrappedBy(proxy, flag, CommandLine(arguments, windows), windows)
         == CommandLine([proxy] + ([flag] + arguments), windows)
  {
    CommandLineCons(flag, arguments, windows);
    CommandLineCons(proxy, [flag] + arguments, windows);
    Regroup(Quoted(proxy, windows), flag, CommandLine(arguments, windows));
  }

  lemma Regroup(a: string, b: string, c: string)
    ensures a + " " + b + " " + c == a + (" " + (b + (" " + c)))
  {
  }

  // ----- what the proxy makes of its command line -----

  datatype LaunchAction = RunSshConnector(program: string, arguments: seq<string>) | Other

  /** The head of the command line parser: the connector takes everything after it verbatim. */
  function Parse(arguments: seq<string>): Result<LaunchAction, ()> {
    if arguments != [] && arguments[0] == CONNECTOR_FLAG then
      if |arguments| > 1 && arguments[1] != "" then Ok(RunSshConnector(arguments[1], arguments[2..])) else Err(())
    else Ok(Other)
  }

  /** The program name at the start of a command line, in which backslashes escape nothing. */
  function ProgramName(s: string, quoted: bool): (r: (string, string))
    ensures |r.1| <= |s| && '"' !in r.0
  {
    if s == "" then ("", "")
    else if s[0] == '"' then ProgramName(s[1..], !quoted)
    else if !quoted && Blank(s[0]) then ("", s)
    else
      var (more, rest) := ProgramName(s[1..], quoted);
      ([s[0]] + more, rest)
  }

  lemma {:induction false} NameUpToQuote(x: string, t: string)
    requires '"' !in x && Ended(t)
    ensures ProgramName(x + ("\"" + t), true) == (x, t)
  {
    var s := x + ("\"" + t);
    if x == "" {
      assert s[1..] == t;
    } else {
      assert s[1..] == x[1..] + ("\"" + t) && s[0] == x[0] && x == [x[0]] + x[1..];
      assert x[0] in x && forall c <- x[1..] :: c in x;
      NameUpToQuote(x[1..], t);
    }
  }

  lemma {:induction false} SafeName(x: string, t: string)
    requires Safe(x) && Ended(t)
    ensures ProgramName(x + t, false) == (x, t)
  {
    var s := x + t;
    if x == "" {
      assert s == t;
    } else {
      assert x[0] in x && SafeChar(x[0]);
      assert s[1..] == x[1..] + t && s[0] == x[0] && x == [x[0]] + x[1..];
      SafeName(x[1..], t);
    }
  }

  predicate EndsInBackslash(s: string) {
    s != "" && s[|s| - 1] == '\\'
  }

  /** Without double quotes, escaping only doubles the backslashes at the end. */
  lemma {:induction false} EscapedPlain(value: string, n: nat) returns (k: nat)
    requires '"' !in value
    ensures Escaped(value, n) == Repeat('\\', n) + value + Repeat('\\', k)
    ensures k > 0 <==> EndsInBackslash(Repeat('\\', n) + value)
    decreases |value|
  {
    if value == "" {
      k := n;
      assert Repeat('\\', 2 * n) == Repeat('\\', n) + "" + Repeat('\\', n);
    } else {
      assert value == [value[0]] + value[1..] && forall c <- value[1..] :: c in value;
      if value[0] == '\\' {
        k := EscapedPlain(value[1..], n + 1);
        assert Repeat('\\', n + 1) + value[1..] == Repeat('\\', n) + value;
      } else {
        assert value[0] in value;
        k := EscapedPlain(value[1..], 0);
        assert Repeat('\\', n) + [value[0]] + (Repeat('\\', 0) + value[1..] + Repeat('\\', k))
            == Repeat('\\', n) + value + Repeat('\\', k);
        assert EndsInBackslash(Repeat('\\', 0) + value[1..]) <==> EndsInBackslash(Repeat('\\', n) + value);
      }
    }
  }

  /** As a program name a quoted path is read back exactly when it has no double quote and does
      not end in a backslash, which no path of a Windows executable does. */
  lemma ProgramNameReadsBack(path: string, t: string)
    requires Ended(t)
    ensures ProgramName(Quoted(path, true) + t, false) == (path, t) <==> '"' !in path && !EndsInBackslash(path)
  {
    if Safe(path) {
      SafeName(path, t);
      assert EndsInBackslash(path) ==> path[|path| - 1] in path && SafeChar(path[|path| - 1]);
    } else if '"' !in path {
      PlainName(path, t);
    }
  }

  lemma PlainName(path: string, t: string)
    requires Ended(t) && !Safe(path) && '"' !in path
    ensures ProgramName(Quoted(path, true) + t, false) == (path, t) <==> !EndsInBackslash(path)
  {
    var k := EscapedPlain(path, 0);
    assert Repeat('\\', 0) + path == path;
    var x := path + Repeat('\\', k);
    QuotedName(x, t);
    assert Quoted(path, true) == "\"" + x + "\"";
    assert k > 0 ==> |x| > |path|;
    assert k == 0 ==> x == path;
  }

  lemma QuotedName(x: string, t: string)
    requires '"' !in x && Ended(t)
    ensures ProgramName("\"" + x + "\"" + t, false) == (x, t)
  {
    var s := "\"" + x + "\"" + t;
    assert s[0] == '"' && s[1..] == x + ("\"" + t);
    NameUpToQuote(x, t);
  }

  /** The argument vector of a Windows process: the program name, then the arguments. */
  function Argv(commandLine: string): seq<string> {
    var (name, rest) := ProgramName(commandLine, false);
    [name] + Tokens(rest, true)
  }

  /** Through the proxy, the connector is started with the program and arguments it was set up
      with: by the rules for arguments always, and by the rule for the program name when that
      rule reads the proxy's path back. */
  lemma ConnectorReceives(proxy: string, arguments: seq<string>)
    requires proxy != "" && arguments != [] && "" !in arguments
    ensures var line := Wrapped(proxy, CommandLine(arguments, true), true);
      && Tokens(line, true) == [proxy] + ([CONNECTOR_FLAG] + arguments)
      && ('"' !in proxy && !EndsInBackslash(proxy) ==> Argv(line) == Tokens(line, true))
    ensures Parse([CONNECTOR_FLAG] + arguments) == Ok(RunSshConnector(arguments[0], arguments[1..]))
  {
    FlagSafe();
    WrappedReadsBack(proxy, CONNECTOR_FLAG, arguments);
    assert ([CONNECTOR_FLAG] + arguments)[2..] == arguments[1..];
  }

  lemma WrappedReadsBack(proxy: string, flag: string, arguments: seq<string>)
    requires proxy != "" && arguments != [] && "" !in arguments && Safe(flag) && flag != ""
    ensures var line := WrappedBy(proxy, flag, CommandLine(arguments, true), true);
      && Tokens(line, true) == [proxy] + ([flag] + arguments)
      && ('"' !in proxy && !EndsInBackslash(proxy) ==> Argv(line) == Tokens(line, true))
  {
    var rest := [flag] + arguments;
    WrappedIsCommandLine(proxy, flag, arguments, true);
    QuotingRoundTrip([proxy] + rest, true);
    QuotingRoundTrip(rest, true);
    CommandLineCons(proxy, rest, true);
    var t := " " + CommandLine(rest, true);
    ProgramNameReadsBack(proxy, t);
    BlankSkipped(CommandLine(rest, true));
  }

  lemma BlankSkipped(s: string)
    ensures Tokens(" " + s, true) == Tokens(s, true)
  {
    assert (" " + s)[1..] == s;
  }
}
