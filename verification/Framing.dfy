/** Reading one newline-terminated message from a stream that arrives in chunks. */
module Framing {
  import opened Common

  const MAX_MESSAGE_BYTES: nat := 65536

  const BUFFER: nat := 4096

  type Byte = b: int | 0 <= b < 256

  const NEWLINE: Byte := 10

  datatype FrameError = Io | TimedOut | InvalidSize | Incomplete

  /** Where the first newline is, or the length when there is none. */
  function FirstNewline(data: seq<Byte>): (n: nat)
    ensures n <= |data| && (n < |data| ==> data[n] == NEWLINE) && forall i :: 0 <= i < n ==> data[i] != NEWLINE
  {
    if data == [] || data[0] == NEWLINE then 0 else 1 + FirstNewline(data[1..])
  }

  /** What a reader makes of all that a peer sends, however it arrives. */
  function Framed(data: seq<Byte>): Result<seq<Byte>, FrameError> {
    var n := FirstNewline(data);
    if n < |data| && n < MAX_MESSAGE_BYTES then Ok(data[..n])
    else if |data| <= MAX_MESSAGE_BYTES then Err(Incomplete)
    else Err(InvalidSize)
  }

  lemma {:induction false} FirstNewlineAt(data: seq<Byte>, n: nat)
    requires n <= |data| && (n < |data| ==> data[n] == NEWLINE) && forall i :: 0 <= i < n ==> data[i] != NEWLINE
    ensures FirstNewline(data) == n
  {
    if n > 0 { FirstNewlineAt(data[1..], n - 1); }
  }

  lemma {:induction false} NoNewlineYet(message: seq<Byte>, data: seq<Byte>)
    requires message <= data && NEWLINE !in message
    ensures FirstNewline(data) >= |message|
  {
    if message != [] {
      assert data[0] == message[0] && message[0] in message;
      assert message[1..] <= data[1..] && forall b <- message[1..] :: b in message;
      NoNewlineYet(message[1..], data[1..]);
    }
  }

  /** A peer's bytes; how many arrive at once, and when reading fails, is arbitrary. */
  class Stream {
    const data: seq<Byte>
    var position: nat
    ghost var failures: nat
    ghost var expired: nat

    ghost predicate Valid()
      reads this
    {
      position <= |data|
    }

    constructor (data: seq<Byte>)
      ensures Valid() && this.data == data && position == 0
    {
      this.data, position, failures, expired := data, 0, 0, 0;
    }

    /** At least one byte unless the peer is done, and at most the capacity. */
    method Read(buffer: array<Byte>, capacity: nat) returns (r: Result<nat, FrameError>)
      requires Valid() && 0 < capacity <= buffer.Length
      modifies this`position, this`failures, buffer
      ensures Valid() && position >= old(position)
      ensures r.Err? ==> r.error == Io && position == old(position)
      ensures failures == old(failures) + if r.Err? then 1 else 0
      ensures r.Ok? ==> r.value <= capacity && position == old(position) + r.value
      ensures r.Ok? ==> buffer[..r.value] == data[old(position)..position]
      ensures r.Ok? && r.value == 0 ==> position == |data|
    {
      var ok: bool := *;
      var wanted: nat := *;
      if !ok {
        failures := failures + 1;
        return Err(Io);
      }
      var most := if capacity <= |data| - position then capacity else |data| - position;
      var n: nat := if wanted < 1 || most < wanted then most else wanted;
      for i := 0 to n
        invariant position == old(position) && failures == old(failures)
        invariant forall k :: 0 <= k < i ==> buffer[k] == data[position + k]
      {
        buffer[i] := data[position + i];
      }
      position := position + n;
      r := Ok(n);
    }

    /** The time left, or nothing when the deadline has passed. */
    method RemainingTime() returns (remaining: Option<nat>)
      modifies this`expired
      ensures expired == old(expired) + if remaining.None? then 1 else 0
    {
      remaining := *;
      if remaining.None? { expired := expired + 1; }
    }
  }

  method Position(buffer: array<Byte>, read: nat) returns (found: Option<nat>)
    requires read <= buffer.Length
    ensures found.Some? ==> found.value < read && buffer[found.value] == NEWLINE
    ensures forall k :: 0 <= k < (if found.Some? then found.value else read) ==> buffer[k] != NEWLINE
  {
    for i := 0 to read
      invariant forall k :: 0 <= k < i ==> buffer[k] != NEWLINE
    {
      if buffer[i] == NEWLINE { return Some(i); }
    }
    found := None;
  }

  /** What was read so far: a prefix of the data without a newline, or up to the first one. */
  ghost predicate Reading(message: seq<Byte>, data: seq<Byte>) {
    message <= data && |message| <= MAX_MESSAGE_BYTES + 1 && NEWLINE !in message
  }

  /** One round: at most the buffer, and never past one byte more than a message may have. */
  method ReadChunk(stream: Stream, message: seq<Byte>, buffer: array<Byte>)
    returns (r: Result<(seq<Byte>, bool), FrameError>)
    requires stream.Valid() && buffer.Length == BUFFER
    requires Reading(message, stream.data) && stream.position == |message|
    modifies stream, buffer
    ensures stream.Valid() && stream.position >= |message|
    ensures r.Ok? && !r.value.1 ==> Reading(r.value.0, stream.data) && |message| < |r.value.0| == stream.position
    ensures r.Ok? && r.value.1 ==>
              && r.value.0 <= stream.data && 0 < |r.value.0| <= MAX_MESSAGE_BYTES + 1
              && FirstNewline(stream.data) == |r.value.0| - 1 < |stream.data|
    ensures r.Err? ==> r.error in {Io, TimedOut} || Err(r.error) == Framed(stream.data)
    ensures stream.failures == old(stream.failures) + if r == Err(Io) then 1 else 0
    ensures stream.expired == old(stream.expired) + if r == Err(TimedOut) then 1 else 0
  {
    var remaining := stream.RemainingTime();
    if remaining.None? { return Err(TimedOut); }
    var capacity := MAX_MESSAGE_BYTES + 1 - |message|;
    NoNewlineYet(message, stream.data);
    if capacity == 0 { return Err(InvalidSize); }
    var read := stream.Read(buffer, if BUFFER <= capacity then BUFFER else capacity);
    if read.Err? { return Err(Io); }
    if read.value == 0 {
      assert message == stream.data;
      return Err(Incomplete);
    }
    var newline := Position(buffer, read.value);
    ghost var arrived := buffer[..read.value];
    assert stream.data[..stream.position] == message + arrived;
    match newline {
      case Some(k) =>
        var whole := message + buffer[..k + 1];
        assert whole == stream.data[..|message| + k + 1];
        forall i | 0 <= i < |message| + k ensures stream.data[i] != NEWLINE {
          assert stream.data[i] == if i < |message| then message[i] else arrived[i - |message|];
        }
        FirstNewlineAt(stream.data, |message| + k);
        r := Ok((whole, true));
      case None =>
        r := Ok((message + buffer[..read.value], false));
    }
  }

  /** The bytes before the first newline, handed over exactly when that newline is among the
      first 65536 bytes: the chunks decide nothing, and only a read that failed or a deadline
      that passed prevents it, and is then what the answer says. No more than one byte beyond the limit is ever held. */
  method ReadMessage(stream: Stream) returns (r: Result<seq<Byte>, FrameError>, ghost held: nat)
    requires stream.Valid() && stream.position == 0
    modifies stream
    ensures r == Framed(stream.data) || r == Err(Io) || r == Err(TimedOut)
    ensures stream.failures == old(stream.failures) + if r == Err(Io) then 1 else 0
    ensures stream.expired == old(stream.expired) + if r == Err(TimedOut) then 1 else 0
    ensures held <= MAX_MESSAGE_BYTES + 1 && (r.Ok? ==> |r.value| < held)
  {
    var message: seq<Byte> := [];
    var buffer := new Byte[BUFFER](_ => 0);
    held := 0;
    while true
      invariant stream.Valid() && fresh(buffer) && buffer.Length == BUFFER
      invariant Reading(message, stream.data) && stream.position == |message| && held == |message|
      invariant stream.failures == old(stream.failures) && stream.expired == old(stream.expired)
      decreases MAX_MESSAGE_BYTES + 1 - |message|
    {
      var chunk := ReadChunk(stream, message, buffer);
      if chunk.Err? { return Err(chunk.error), held; }
      message := chunk.value.0;
      held := |message|;
      if chunk.value.1 { break; }
    }
    if |message| > MAX_MESSAGE_BYTES { return Err(InvalidSize), held; }
    var remaining := stream.RemainingTime();
    if remaining.None? { return Err(TimedOut), held; }
    assert message[..|message| - 1] == stream.data[..|message| - 1];
    r := Ok(message[..|message| - 1]);
  }
}
