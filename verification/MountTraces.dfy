/** What the parts of mount and unmount leave in the log of events: who was looked at, asked and
    signalled, in which order, and why a part ended as it did. */
module MountTraces {
  import opened Common
  import opened Process
  import opened MountProtocol

  datatype Options = Options(readyTimeout: nat, readyStableFor: nat, pollInterval: nat, stopTimeout: nat)

  const STOP_GRACE: nat := 500

  datatype MountError =
    | LockFailed | Unreadable | AlreadyMounted | Reserved | InvalidMountpoint | StorageFailed
    | ProcessFailed | NeverReady | NotRecorded | PidReused | IdentityUnverified | DidNotExit | StillReady

  // ----- looking, waiting, signalling -----

  predicate Looks(e: Event, state: MountState) {
    e.Observe? && e.pid == state.pid
  }

  /** The last event is a snapshot of the recorded PID, which shows a process or not. */
  predicate LastSeen(t: seq<Event>, state: MountState, gone: bool) {
    t != [] && Looks(t[|t| - 1], state) && (gone <==> t[|t| - 1].snapshot.None?)
  }

  /** After the first reading of the clock: snapshots that show a process, and readings that are
      not late. */
  predicate Waiting(t: seq<Event>, state: MountState, timeout: nat) {
    && t != [] && t[0].Clock?
    && (|t| > 1 ==>
          && Waiting(t[..|t| - 1], state, timeout)
          && var e := t[|t| - 1];
          if e.Clock? then e.now < t[0].now + timeout else Looks(e, state) && e.snapshot.Some?)
  }

  /** Snapshots until the first that no longer shows a process, or until the first reading of the
      clock that is late. */
  predicate Waits(t: seq<Event>, state: MountState, timeout: nat) {
    && 1 < |t| && Waiting(t[..|t| - 1], state, timeout)
    && var e := t[|t| - 1];
    e == Observe(state.pid, None) || (e.Clock? && e.now >= t[0].now + timeout)
  }

  /** A snapshot of the recorded PID, and a signal to it exactly when the snapshot is verified. */
  predicate Signalled(t: seq<Event>, state: MountState, force: bool) {
    && 0 < |t| && Looks(t[0], state)
    && if Verified(state, t[0].snapshot, WINDOWS) then |t| == 2 && t[1] == Kill(state.pid, force) else |t| == 1
  }

  /** A signal attempt and the grace period after it. */
  predicate Attempt(t: seq<Event>, state: MountState, force: bool) {
    && 0 < |t| && Looks(t[0], state)
    && var n := if Verified(state, t[0].snapshot, WINDOWS) then 2 else 1;
    n <= |t| && Signalled(t[..n], state, force) && Waits(t[n..], state, STOP_GRACE)
  }

  lemma AttemptOf(s: seq<Event>, w: seq<Event>, state: MountState, force: bool)
    requires Signalled(s, state, force) && Waits(w, state, STOP_GRACE)
    ensures Attempt(s + w, state, force)
  {
    assert (s + w)[..|s|] == s && (s + w)[|s|..] == w;
  }

  /** A killing attempt if the process is still identified. */
  predicate Finished(t: seq<Event>, state: MountState) {
    && 0 < |t| && Looks(t[0], state)
    && if Verified(state, t[0].snapshot, WINDOWS) then Attempt(t[1..], state, true) else |t| == 1
  }

  /** A terminating attempt, a killing one, and a last look. */
  ghost predicate Terminated(t: seq<Event>, state: MountState, stopped: bool) {
    LastSeen(t, state, stopped)
    && exists x, y :: Attempt(x, state, false) && Finished(y, state) && t[..|t| - 1] == x + y
  }

  /** What follows a snapshot whose start time fits. */
  ghost predicate StopOfMatching(t: seq<Event>, state: MountState, identified: bool, stopped: bool) {
    && 0 < |t| && t[0].RcAnswer?
    && if t[0] == RcAnswer(Some(state.pid)) then 1 < |t| && t[1] == Quit && Terminated(t[2..], state, stopped)
       else if identified then Terminated(t[1..], state, stopped)
       else |t| == 1 && !stopped
  }

  /** A process that is gone needs nothing, one with another start time or that neither argv nor
      the endpoint identifies is left alone, and any other is asked to quit if the endpoint named
      it, and terminated; it counts as stopped exactly when the last snapshot no longer shows it. */
  ghost predicate StopDecided(t: seq<Event>, state: MountState, stopped: bool) {
    && 0 < |t| && Looks(t[0], state)
    && var first := t[0].snapshot;
    if first.None? || !StartTimeMatches(state, first.value) then |t| == 1 && stopped == first.None?
    else StopOfMatching(t[1..], state, Verified(state, first, WINDOWS), stopped)
  }

  /** The recorded process was, or had been, identified by start time and by argv or the endpoint. */
  predicate Identified(state: MountState, first: Option<ProcessSnapshot>, answer: Event) {
    && first.Some? && StartTimeMatches(state, first.value)
    && (Verified(state, first, WINDOWS) || answer == RcAnswer(Some(state.pid)))
  }

  /** A stop that leaves a process behind has either not identified it, or has sent it a terminating
      signal and a killing one whenever the snapshot before the signal was verified. */
  lemma NotStopped(t: seq<Event>, state: MountState)
    requires StopDecided(t, state, false)
    ensures LastSeen([t[0]], state, false)
    ensures |t| > 2 ==> Identified(state, t[0].snapshot, t[1]) && LastSeen(t, state, false)
    ensures |t| <= 2 ==> !StartTimeMatches(state, t[0].snapshot.value)
                         || (!Verified(state, t[0].snapshot, WINDOWS) && t[1] != RcAnswer(Some(state.pid)))
  {
  }

  // ----- readiness -----

  datatype PollResult = Lost | Unidentified | Unanswered | Unmounted | AllGood

  /** What a poll asks, up to the first answer that speaks against readiness. */
  function PollEvents(result: PollResult, snapshot: Option<ProcessSnapshot>, answer: Option<nat>, state: MountState)
    : seq<Event>
  {
    [Observe(state.pid, snapshot)]
    + (if result.Lost? || result.Unidentified? then [] else [RcAnswer(answer)])
    + (if result.Unmounted? || result.AllGood? then [Ready(result.AllGood?)] else [])
  }

  predicate PollFits(result: PollResult, snapshot: Option<ProcessSnapshot>, answer: Option<nat>, state: MountState) {
    if snapshot.None? || !StartTimeMatches(state, snapshot.value) then result.Lost?
    else if !Verified(state, snapshot, WINDOWS) then result.Unidentified?
    else if answer != Some(state.pid) then result.Unanswered?
    else result.Unmounted? || result.AllGood?
  }

  /** A round of the readiness loop: a poll; if it was good, since when on the clock, read at the
      first good one in a row, and the time by then; and the time that is compared with the deadline. */
  datatype Round = Round(result: PollResult, snapshot: Option<ProcessSnapshot>, answer: Option<nat>,
                         since: Option<int>, elapsed: Option<int>, late: Option<int>)

  function Tick(time: Option<int>): seq<Event> {
    if time.Some? then [Clock(time.value)] else []
  }

  function RoundEvents(r: Round, state: MountState): seq<Event> {
    PollEvents(r.result, r.snapshot, r.answer, state) + Tick(r.since) + Tick(r.elapsed) + Tick(r.late)
  }

  function RoundsEvents(rounds: seq<Round>, state: MountState): seq<Event> {
    if rounds == [] then []
    else RoundsEvents(rounds[..|rounds| - 1], state) + RoundEvents(rounds[|rounds| - 1], state)
  }

  /** Since when all rounds up to the last one were good. */
  function Since(rounds: seq<Round>): Option<int> {
    if rounds == [] || !rounds[|rounds| - 1].result.AllGood? then None
    else
      var before := Since(rounds[..|rounds| - 1]);
      if before.Some? then before else rounds[|rounds| - 1].since
  }

  /** The round after `before`: the clock is read for the first good round in a row, and for each. */
  predicate Follows(before: seq<Round>, r: Round, state: MountState) {
    && PollFits(r.result, r.snapshot, r.answer, state)
    && (r.elapsed.Some? <==> r.result.AllGood?)
    && (r.since.Some? <==> r.result.AllGood? && Since(before).None?)
  }

  /** The good rounds have lasted long enough. */
  predicate Stable(before: seq<Round>, r: Round, stable: int) {
    r.result.AllGood? && r.elapsed.Some? && Since(before + [r]).Some?
    && r.elapsed.value - Since(before + [r]).value >= stable
  }

  /** The round decides nothing yet. */
  predicate GoesOn(before: seq<Round>, r: Round, state: MountState, options: Options, start: int) {
    && Follows(before, r, state) && !r.result.Lost? && !Stable(before, r, options.readyStableFor)
    && r.late.Some? && r.late.value < start + options.readyTimeout
  }

  /** The round decides: yes by stability, no by a lost process or the deadline. */
  predicate Decides(before: seq<Round>, r: Round, state: MountState, options: Options, start: int, ready: bool) {
    && Follows(before, r, state) && (ready <==> Stable(before, r, options.readyStableFor))
    && (r.late.Some? <==> !ready && !r.result.Lost?)
    && (r.late.Some? ==> r.late.value >= start + options.readyTimeout)
  }

  predicate Undecided(rounds: seq<Round>, state: MountState, options: Options, start: int) {
    forall i :: 0 <= i < |rounds| ==> GoesOn(rounds[..i], rounds[i], state, options, start)
  }

  /** The whole wait: rounds that decide nothing, and one that decides. */
  ghost predicate Awaited(t: seq<Event>, rounds: seq<Round>, state: MountState, options: Options, ready: bool) {
    && rounds != [] && t != [] && t[0].Clock?
    && var n := |rounds| - 1;
    && Undecided(rounds[..n], state, options, t[0].now)
    && Decides(rounds[..n], rounds[n], state, options, t[0].now, ready)
    && t[1..] == RoundsEvents(rounds, state)
  }

  predicate GoodFrom(rounds: seq<Round>, i: int, j: int) {
    0 <= i <= j < |rounds| && forall k :: i <= k <= j ==> rounds[k].result.AllGood?
  }

  lemma {:induction false} SinceFirst(rounds: seq<Round>, i: nat)
    requires GoodFrom(rounds, i, |rounds| - 1) && (i > 0 ==> !rounds[i - 1].result.AllGood?)
    requires rounds[i].since.Some?
    ensures Since(rounds) == rounds[i].since
  {
    var before := rounds[..|rounds| - 1];
    if i == |rounds| - 1 {
      assert before != [] ==> before[|before| - 1] == rounds[i - 1];
    } else {
      SinceFirst(before, i);
    }
  }

  /** Where the good rounds at the end began. */
  lemma {:induction false} FirstOf(rounds: seq<Round>) returns (i: nat)
    requires rounds != [] && rounds[|rounds| - 1].result.AllGood?
    ensures GoodFrom(rounds, i, |rounds| - 1) && (i > 0 ==> !rounds[i - 1].result.AllGood?)
  {
    i := |rounds| - 1;
    if i > 0 && rounds[i - 1].result.AllGood? {
      var j := FirstOf(rounds[..i]);
      assert forall k :: j <= k < i ==> rounds[k] == rounds[..i][k];
      i := j;
    }
  }

  ghost predicate AllFollow(rounds: seq<Round>, state: MountState) {
    forall i :: 0 <= i < |rounds| ==> Follows(rounds[..i], rounds[i], state)
  }

  lemma AwaitedFollows(t: seq<Event>, rounds: seq<Round>, state: MountState, options: Options, ready: bool)
    requires Awaited(t, rounds, state, options, ready)
    ensures AllFollow(rounds, state)
  {
    var n := |rounds| - 1;
    forall i | 0 <= i < |rounds| ensures Follows(rounds[..i], rounds[i], state) {
      if i < n {
        assert GoesOn(rounds[..n][..i], rounds[..n][i], state, options, t[0].now);
        assert rounds[..n][..i] == rounds[..i];
      }
    }
  }

  lemma OpeningHasSince(rounds: seq<Round>, i: nat, state: MountState)
    requires AllFollow(rounds, state) && i < |rounds| && rounds[i].result.AllGood?
    requires i > 0 ==> !rounds[i - 1].result.AllGood?
    ensures rounds[i].since.Some?
  {
    assert Follows(rounds[..i], rounds[i], state);
    assert i > 0 ==> rounds[..i][|rounds[..i]| - 1] == rounds[i - 1];
  }

  /** Yes means an unbroken run of good rounds up to the last one that spans the stable time. */
  lemma ReadyMeansStable(t: seq<Event>, rounds: seq<Round>, state: MountState, options: Options) returns (i: nat)
    requires Awaited(t, rounds, state, options, true)
    ensures GoodFrom(rounds, i, |rounds| - 1) && rounds[i].since.Some? && rounds[|rounds| - 1].elapsed.Some?
    ensures rounds[|rounds| - 1].elapsed.value - rounds[i].since.value >= options.readyStableFor
  {
    var n := |rounds| - 1;
    assert rounds[..n] + [rounds[n]] == rounds;
    i := FirstOf(rounds);
    AwaitedFollows(t, rounds, state, options, true);
    OpeningHasSince(rounds, i, state);
    SinceFirst(rounds, i);
  }

  /** No means that the process was lost or the time was up, and that until then no run of good
      rounds had spanned the stable time. */
  lemma NotReadyMeansVain(t: seq<Event>, rounds: seq<Round>, state: MountState, options: Options, i: nat, j: nat)
    requires Awaited(t, rounds, state, options, false)
    ensures var last := rounds[|rounds| - 1];
      last.result.Lost? || (last.late.Some? && last.late.value >= t[0].now + options.readyTimeout)
    ensures GoodFrom(rounds, i, j) && (i > 0 ==> !rounds[i - 1].result.AllGood?) ==>
              rounds[i].since.Some? && rounds[j].elapsed.Some?
              && rounds[j].elapsed.value - rounds[i].since.value < options.readyStableFor
  {
    if GoodFrom(rounds, i, j) && (i > 0 ==> !rounds[i - 1].result.AllGood?) {
      AwaitedFollows(t, rounds, state, options, false);
      NotStableAt(t, rounds, state, options, j);
      RunNotStable(rounds, state, options.readyStableFor, i, j);
    }
  }

  lemma NotStableAt(t: seq<Event>, rounds: seq<Round>, state: MountState, options: Options, j: nat)
    requires Awaited(t, rounds, state, options, false) && j < |rounds|
    ensures !Stable(rounds[..j], rounds[j], options.readyStableFor)
  {
    var n := |rounds| - 1;
    if j < n {
      assert GoesOn(rounds[..n][..j], rounds[..n][j], state, options, t[0].now);
      assert rounds[..n][..j] == rounds[..j];
    }
  }

  lemma RunNotStable(rounds: seq<Round>, state: MountState, stable: int, i: nat, j: nat)
    requires AllFollow(rounds, state) && GoodFrom(rounds, i, j) && (i > 0 ==> !rounds[i - 1].result.AllGood?)
    requires !Stable(rounds[..j], rounds[j], stable)
    ensures rounds[i].since.Some? && rounds[j].elapsed.Some?
            && rounds[j].elapsed.value - rounds[i].since.value < stable
  {
    OpeningHasSince(rounds, i, state);
    SinceFirst(rounds[..j + 1], i);
    assert Follows(rounds[..j], rounds[j], state);
    assert rounds[..j] + [rounds[j]] == rounds[..j + 1];
  }

  // ----- giving up a mount -----

  /** A stop; the record goes exactly when its last snapshot no longer showed the process. */
  ghost predicate GivenUp(t: seq<Event>, state: MountState, ok: bool) {
    && 0 < |t|
    && if t[|t| - 1].Remove? then StopDecided(t[..|t| - 1], state, true) && (ok ==> t[|t| - 1].removed)
       else StopDecided(t, state, false) && ok
  }

  /** After a recorded spawn: a wait that succeeds is followed by saving the mounted state, and
      anything else by giving up what was started. */
  ghost predicate Settled(w: seq<Event>, rounds: seq<Round>, g: seq<Event>, state: MountState, options: Options,
                          r: Result<MountState, MountError>)
  {
    var mounted := state.(phase := Mounted);
    match r
    case Ok(m) => Awaited(w, rounds, state, options, true) && m == mounted && g == [Save(mounted, true)]
    case Err(NeverReady) => Awaited(w, rounds, state, options, false) && GivenUp(g, state, true)
    case Err(StorageFailed) =>
      || (Awaited(w, rounds, state, options, false) && GivenUp(g, state, false))
      || (Awaited(w, rounds, state, options, true) && SaveUndone(g, mounted))
    case Err(_) => false
  }

  /** A write of the mounted state that failed, and giving up. */
  ghost predicate SaveUndone(g: seq<Event>, mounted: MountState) {
    && 0 < |g| && g[0].Save? && g[0].saved == mounted
    && (GivenUp(g[1..], mounted, true) || GivenUp(g[1..], mounted, false))
  }

  // ----- ending a process that was mounted -----

  /** A stop, and a wait. */
  ghost predicate StopThenWait(t: seq<Event>, state: MountState, timeout: nat) {
    exists s, w, stopped :: StopDecided(s, state, stopped) && Waits(w, state, timeout) && t == s + w
  }

  /** A process that is still shown after the first wait is stopped, and waited for again. */
  ghost predicate Resorted(t: seq<Event>, state: MountState, timeout: nat) {
    && 0 < |t| && Looks(t[0], state)
    && if t[0].snapshot.None? then |t| == 1 else StopThenWait(t[1..], state, timeout)
  }

  /** Asked to quit if the endpoint named it, waited for, resorted to if need be, and looked at. */
  ghost predicate Ended(t: seq<Event>, state: MountState, named: bool, timeout: nat, gone: bool) {
    && LastSeen(t, state, gone) && (named ==> t[0] == Quit)
    && exists w, r :: Waits(w, state, timeout) && Resorted(r, state, timeout) && t[..|t| - 1] == Asked(named) + w + r
  }

  function Asked(named: bool): seq<Event> {
    if named then [Quit] else []
  }

  /** After the first reading of the clock: a mounted mountpoint, and readings that are not late. */
  predicate WatchingReady(t: seq<Event>, timeout: nat) {
    && t != [] && t[0].Clock?
    && (|t| > 1 ==>
          && WatchingReady(t[..|t| - 1], timeout)
          && var e := t[|t| - 1];
          if e.Clock? then e.now < t[0].now + timeout else e == Ready(true))
  }

  /** Looks at the mountpoint until it is first seen unmounted, or until the clock is late. */
  predicate ReadyWaits(t: seq<Event>, timeout: nat) {
    && 1 < |t| && WatchingReady(t[..|t| - 1], timeout)
    && var e := t[|t| - 1];
    e == Ready(false) || (e.Clock? && e.now >= t[0].now + timeout)
  }

  /** Once the process is gone: waits for the mountpoint, looks at it, and removes the record of one
      that is not mounted. */
  ghost predicate Cleared(t: seq<Event>, options: Options, error: Option<MountError>) {
    exists w, last :: ReadyWaits(w, options.stopTimeout) && Removal(last, error) && t == w + last
  }

  predicate Removal(last: seq<Event>, error: Option<MountError>) {
    if error == Some(StillReady) then last == [Ready(true)]
    else
      && |last| == 2 && last[0] == Ready(false) && last[1].Remove?
      && (error.None? || error == Some(StorageFailed)) && (error.None? ==> last[1].removed)
  }

  ghost predicate Dismantled(t: seq<Event>, state: MountState, named: bool, options: Options,
                             error: Option<MountError>)
  {
    if error == Some(DidNotExit) then Ended(t, state, named, options.stopTimeout, false)
    else exists e, c :: Ended(e, state, named, options.stopTimeout, true) && Cleared(c, options, error) && t == e + c
  }

  /** An attempt to remove the record; `done` is what is reported if it succeeds. */
  predicate Discards(t: seq<Event>, done: Option<MountError>, error: Option<MountError>) {
    && |t| == 1 && t[0].Remove? && (error == done || error == Some(StorageFailed))
    && (error == done ==> t[0].removed)
  }

  /** What follows a snapshot whose start time fits. */
  ghost predicate MatchingDecided(t: seq<Event>, snapshot: ProcessSnapshot, state: MountState, options: Options,
                                  error: Option<MountError>)
  {
    && 0 < |t| && t[0].RcAnswer?
    && if Identified(state, Some(snapshot), t[0]) then
         Dismantled(t[1..], state, t[0] == RcAnswer(Some(state.pid)), options, error)
       else if snapshot.arguments.Some? then Discards(t[1..], Some(PidReused), error)
       else |t| == 1 && error == Some(IdentityUnverified)
  }

  /** By the first snapshot: a process that is gone leaves only its record to remove; a PID that
      shows another process loses the record too, but is reported; an unreadable argv that the
      endpoint does not make up for removes nothing; and an identified process is dismantled. */
  ghost predicate UnmountDecided(t: seq<Event>, state: MountState, options: Options, error: Option<MountError>) {
    && 0 < |t| && Looks(t[0], state)
    && var first := t[0].snapshot;
    if first.None? then Discards(t[1..], None, error)
    else if !StartTimeMatches(state, first.value) then Discards(t[1..], Some(PidReused), error)
    else MatchingDecided(t[1..], first.value, state, options, error)
  }

  /** `s` is a part of `t`. */
  ghost predicate Within(s: seq<Event>, t: seq<Event>) {
    exists a, b :: t == a + s + b
  }

  lemma WithinTrans(r: seq<Event>, s: seq<Event>, t: seq<Event>)
    requires Within(r, s) && Within(s, t)
    ensures Within(r, t)
  {
    var a, b :| s == a + r + b;
    var c, d :| t == c + s + d;
    assert t == (c + a) + r + (b + d);
  }

  lemma WithinSum(a: seq<Event>, s: seq<Event>, b: seq<Event>)
    ensures Within(s, a + s + b)
  {
  }

  /** The process was seen gone, or a stop of it was tried. */
  ghost predicate Tried(t: seq<Event>, state: MountState) {
    || Within([Observe(state.pid, None)], t)
    || exists s :: StopsWithin(s, state, t)
  }

  ghost predicate StopsWithin(s: seq<Event>, state: MountState, t: seq<Event>) {
    (StopDecided(s, state, true) || StopDecided(s, state, false)) && Within(s, t)
  }

  lemma TriedTrans(r: seq<Event>, a: seq<Event>, b: seq<Event>, t: seq<Event>, state: MountState)
    requires Tried(r, state) && t == a + r + b
    ensures Tried(t, state)
  {
    WithinSum(a, r, b);
    if Within([Observe(state.pid, None)], r) {
      WithinTrans([Observe(state.pid, None)], r, t);
    } else {
      var s :| StopsWithin(s, state, r);
      WithinTrans(s, r, t);
      assert StopsWithin(s, state, t);
    }
  }

  lemma ResortedTried(r: seq<Event>, state: MountState, timeout: nat)
    requires Resorted(r, state, timeout)
    ensures Tried(r, state)
  {
    if r[0].snapshot.None? {
      assert r == [] + [Observe(state.pid, None)] + [];
      WithinSum([], [Observe(state.pid, None)], []);
    } else {
      StoppedTried(r[1..], state, timeout);
      TriedLater(r, 1, state);
    }
  }

  lemma StoppedTried(t: seq<Event>, state: MountState, timeout: nat)
    requires StopThenWait(t, state, timeout)
    ensures Tried(t, state)
  {
    var s, w, stopped :| StopDecided(s, state, stopped) && Waits(w, state, timeout) && t == s + w;
    StopTried(s, state, stopped);
    TriedTrans(s, [], w, t, state);
  }

  lemma StopTried(s: seq<Event>, state: MountState, stopped: bool)
    requires StopDecided(s, state, stopped)
    ensures Tried(s, state)
  {
    WithinSum([], s, []);
    assert [] + s + [] == s;
    assert StopsWithin(s, state, s);
  }

  lemma EndedTried(e: seq<Event>, state: MountState, named: bool, timeout: nat, gone: bool)
    requires Ended(e, state, named, timeout, gone)
    ensures Tried(e, state)
  {
    var w, r :| Waits(w, state, timeout) && Resorted(r, state, timeout) && e[..|e| - 1] == Asked(named) + w + r;
    ResortedTried(r, state, timeout);
    TriedAfter(r, Asked(named) + w, e, state);
  }

  lemma TriedAfter(r: seq<Event>, front: seq<Event>, e: seq<Event>, state: MountState)
    requires Tried(r, state) && e != [] && e[..|e| - 1] == front + r
    ensures Tried(e, state)
  {
    var last := [e[|e| - 1]];
    TriedTrans(r, front, last, e, state);
  }

  /** When a process did not exit, the last snapshot still shows it, and a stop of it was tried
      unless it had been seen gone before. */
  lemma DidNotExitTried(t: seq<Event>, state: MountState, options: Options)
    requires UnmountDecided(t, state, options, Some(DidNotExit))
    ensures 1 < |t| && Identified(state, t[0].snapshot, t[1]) && LastSeen(t, state, false) && Tried(t, state)
  {
    MatchingTried(t[1..], t[0].snapshot.value, state, options);
    TriedLater(t, 1, state);
  }

  lemma MatchingTried(t: seq<Event>, snapshot: ProcessSnapshot, state: MountState, options: Options)
    requires MatchingDecided(t, snapshot, state, options, Some(DidNotExit))
    ensures Identified(state, Some(snapshot), t[0]) && LastSeen(t, state, false) && Tried(t, state)
  {
    var named := t[0] == RcAnswer(Some(state.pid));
    DismantledEnds(t[1..], state, named, options);
    TriedLater(t, 1, state);
  }

  lemma DismantledEnds(t: seq<Event>, state: MountState, named: bool, options: Options)
    requires Dismantled(t, state, named, options, Some(DidNotExit))
    ensures LastSeen(t, state, false) && Tried(t, state)
  {
    EndedTried(t, state, named, options.stopTimeout, false);
  }

  lemma TriedLater(t: seq<Event>, n: nat, state: MountState)
    requires n <= |t| && Tried(t[n..], state)
    ensures Tried(t, state)
  {
    TriedTrans(t[n..], t[..n], [], t, state);
  }
}
