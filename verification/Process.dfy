/** Process identity as the runtime sees it: recorded mount states, process
    snapshots and the argv test that ties one to the other. */
module Process {
  import opened Common

  type ServerId = string
  type Args = seq<string>

  datatype Phase = Starting | Mounted

  datatype MountState = MountState(
    pid: nat,
    serverId: ServerId,
    remote: string,
    mountpoint: string,
    log: string,
    rclone: string,
    nfs: bool,
    phase: Phase,
    startedAt: Option<int>)

  datatype ProcessSnapshot = ProcessSnapshot(arguments: Option<Args>, startedAt: int)

  function Lower(c: char): char {
    if 'A' <= c <= 'Z' then c + 32 as char else c
  }

  function Normalize(value: string, windows: bool): (r: string)
    ensures |r| == |value|
  {
    seq(|value|, i requires 0 <= i < |value| =>
      var c := if value[i] == '\\' then '/' else value[i];
      if windows then Lower(c) else c)
  }

  function TrimStart(value: string, c: char): string {
    if value != "" && value[0] == c then TrimStart(value[1..], c) else value
  }

  function TrimEnd(value: string, c: char): string {
    if |value| > 0 && value[|value| - 1] == c then TrimEnd(value[..|value| - 1], c) else value
  }

  /** The key under which two spellings of a mountpoint are the same target. */
  function PathKey(path: string, windows: bool): string {
    TrimEnd(Normalize(path, windows), '/')
  }

  function Subcommand(nfs: bool): string {
    if nfs then "nfsmount" else "mount"
  }

  function NormalizeAll(arguments: Args, windows: bool): (r: Args)
    ensures |r| == |arguments|
  {
    seq(|arguments|, i requires 0 <= i < |arguments| => Normalize(arguments[i], windows))
  }

  function Position(arguments: Args, word: string): (r: Option<nat>)
    ensures r.Some? ==> r.value < |arguments| && arguments[r.value] == word
    ensures r.Some? ==> forall i :: 0 <= i < r.value ==> arguments[i] != word
    ensures r.None? <==> word !in arguments
  {
    if |arguments| == 0 then None
    else if arguments[0] == word then Some(0)
    else match Position(arguments[1..], word)
      case None => None
      case Some(i) => Some(i + 1)
  }

  predicate HasPair(arguments: Args, first: string, second: string) {
    exists i :: 0 <= i < |arguments| - 1 && arguments[i] == first && arguments[i + 1] == second
  }

  predicate ArgvMatches(arguments: Args, state: MountState, windows: bool) {
    var args := NormalizeAll(arguments, windows);
    match Position(args, Subcommand(state.nfs))
    case None => false
    case Some(i) =>
      && i + 2 < |args|
      && args[i + 1] == Normalize(state.remote, windows)
      && args[i + 2] == Normalize(state.mountpoint, windows)
      && HasPair(args, "--log-file", Normalize(state.log, windows))
      && (state.rclone == "" || args[0] == Normalize(state.rclone, windows))
  }

  predicate StartTimeMatches(state: MountState, snapshot: ProcessSnapshot) {
    state.startedAt.None? || state.startedAt.value == snapshot.startedAt
  }

  /** Start time and readable argv both identify the recorded mount process. */
  predicate Verified(state: MountState, snapshot: Option<ProcessSnapshot>, windows: bool) {
    && snapshot.Some?
    && StartTimeMatches(state, snapshot.value)
    && snapshot.value.arguments.Some?
    && ArgvMatches(snapshot.value.arguments.value, state, windows)
  }

  predicate MayBeOwned(state: MountState, snapshot: Option<ProcessSnapshot>, windows: bool) {
    && snapshot.Some?
    && StartTimeMatches(state, snapshot.value)
    && (snapshot.value.arguments.Some? ==> ArgvMatches(snapshot.value.arguments.value, state, windows))
  }

  /** The options `MountCommand::build` puts before the subcommand. */
  function CommandHead(rclone: string, config: string, rcAddr: string, htpasswd: string): Args {
    [rclone, "--config", config, "--rc", "--rc-addr", rcAddr, "--rc-htpasswd", htpasswd]
  }

  /** `MountCommand::build`: the options up to the log file, then every later option as `tail`. */
  function BuildCommand(state: MountState, head: Args, cacheDir: string, tail: Args): Args {
    head + [Subcommand(state.nfs), state.remote, state.mountpoint]
    + ["--vfs-fast-fingerprint", "--links", "--cache-dir", cacheDir]
    + ["--log-file", state.log] + tail
  }

  /** A process started from the built command is recognised by the record made for it when
      no earlier word of the command already spells the subcommand. */
  lemma BuiltCommandMatches(state: MountState, head: Args, cacheDir: string, tail: Args, windows: bool)
    requires |head| > 0 && head[0] == state.rclone
    requires Subcommand(state.nfs) !in NormalizeAll(head, windows)
    ensures ArgvMatches(BuildCommand(state, head, cacheDir, tail), state, windows)
  {
    var command := BuildCommand(state, head, cacheDir, tail);
    var args := NormalizeAll(command, windows);
    var n := |head|;
    Fixed(Subcommand(state.nfs), windows);
    Fixed("--log-file", windows);
    assert command[n..n + 3] == [Subcommand(state.nfs), state.remote, state.mountpoint];
    assert command[n] == Subcommand(state.nfs) && command[n + 1] == state.remote && command[n + 2] == state.mountpoint;
    assert command[n + 7] == "--log-file" && command[n + 8] == state.log;
    assert args[n + 7] == "--log-file" && args[n + 8] == Normalize(state.log, windows);
    forall k | 0 <= k < n ensures args[k] != Subcommand(state.nfs) {
      assert command[k] == head[k];
      assert NormalizeAll(head, windows)[k] in NormalizeAll(head, windows);
    }
    assert command[0] == state.rclone;
    PositionAt(args, Subcommand(state.nfs), n);
  }

  lemma PositionAt(arguments: Args, word: string, i: nat)
    requires i < |arguments| && arguments[i] == word
    requires forall k :: 0 <= k < i ==> arguments[k] != word
    ensures Position(arguments, word) == Some(i)
  {
  }

  lemma Fixed(word: string, windows: bool)
    requires forall i :: 0 <= i < |word| ==> word[i] == '-' || 'a' <= word[i] <= 'z'
    ensures Normalize(word, windows) == word
  {
  }
}
