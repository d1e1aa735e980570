/** One transfer snapshot, put together from the upload queue, the cache counters and the active
    transfers of rclone. */
module Transfer {
  import opened Common
  import opened Process
  import opened Text

  const MAX: nat := 0xFFFF_FFFF_FFFF_FFFF

  type u64 = n: int | 0 <= n <= MAX

  function Saturate(n: nat): u64 {
    if n <= MAX then n else MAX
  }

  function Min(a: nat, b: nat): nat { if a <= b then a else b }
  function Max(a: nat, b: nat): nat { if a <= b then b else a }

  function Clamp(p: real): (r: real)
    ensures 0.0 <= r <= 100.0
  {
    if p < 0.0 then 0.0 else if p > 100.0 then 100.0 else p
  }

  datatype QueueItem = QueueItem(id: string, name: string, size: u64, uploading: bool, tries: nat)

  datatype ActiveTransfer = ActiveTransfer(name: string, size: u64, bytes: u64, percentage: real, speed: real,
                                           speedAvg: real, eta: Option<real>)

  datatype DiskCacheStats = DiskCacheStats(uploadsQueued: u64, uploadsInProgress: u64, erroredFiles: u64,
                                           outOfSpace: bool)

  datatype TransferFile = TransferFile(
    id: string, name: string, size: u64, bytes: u64, percentage: real, speed: real, eta: Option<real>,
    uploading: bool, tries: nat)

  datatype TransferSnapshot = TransferSnapshot(
    files: seq<TransferFile>, queued: nat, uploading: nat, queuedBytes: u64, transferredBytes: u64, percentage: real,
    errors: nat, outOfSpace: bool, synced: bool)

  // ----- matching names -----

  function NormalizedTransferName(value: string): string {
    TrimEnd(TrimStart(Normalize(value, false), '/'), '/')
  }

  predicate EndsWith(value: string, end: string) {
    |end| <= |value| && value[|value| - |end|..] == end
  }

  predicate TransferMatches(queued: string, active: string) {
    var (q, a) := (NormalizedTransferName(queued), NormalizedTransferName(active));
    q != "" && a != "" && (q == a || EndsWith(q, "/" + a) || EndsWith(a, "/" + q))
  }

  /** The last parts of the one path are all the parts of the other. */
  predicate TailOf(tail: seq<string>, parts: seq<string>) {
    |tail| <= |parts| && parts[|parts| - |tail|..] == tail
  }

  lemma EndsByParts(s: string, t: string)
    ensures s == t || EndsWith(s, "/" + t) <==> TailOf(Split(t, '/'), Split(s, '/'))
  {
    if EndsWith(s, "/" + t) { TailFromEnd(s, t); }
    if TailOf(Split(t, '/'), Split(s, '/')) { EndFromTail(s, t); }
  }

  lemma TailFromEnd(s: string, t: string)
    requires EndsWith(s, "/" + t)
    ensures TailOf(Split(t, '/'), Split(s, '/'))
  {
    var front := s[..|s| - |"/" + t|];
    assert s == front + ['/'] + t;
    SplitConcat(front, t, '/');
    TailOfSum(Split(front, '/'), Split(t, '/'));
  }

  lemma TailOfSum(front: seq<string>, tail: seq<string>)
    ensures TailOf(tail, front + tail)
  {
  }

  lemma EndFromTail(s: string, t: string)
    requires TailOf(Split(t, '/'), Split(s, '/'))
    ensures s == t || EndsWith(s, "/" + t)
  {
    var (p, q) := (Split(s, '/'), Split(t, '/'));
    JoinSplit(s, '/');
    JoinSplit(t, '/');
    JoinedTail(p[..|p| - |q|], q, p);
  }

  lemma JoinedTail(front: seq<string>, q: seq<string>, p: seq<string>)
    requires q != [] && p == front + q
    ensures Join(p, "/") == Join(q, "/") || EndsWith(Join(p, "/"), "/" + Join(q, "/"))
  {
    if front == [] {
      assert p == q;
    } else {
      JoinConcat(front, q, "/");
      EndOfSum(Join(front, "/"), "/" + Join(q, "/"), Join(p, "/"));
    }
  }

  lemma EndOfSum(front: string, end: string, s: string)
    requires s == front + end
    ensures EndsWith(s, end)
  {
  }

  /** Two names match exactly when, part by part and case by case, one is the end of the other;
      which one is queued does not matter. */
  lemma MatchesByParts(queued: string, active: string)
    ensures var (q, a) := (NormalizedTransferName(queued), NormalizedTransferName(active));
      TransferMatches(queued, active)
      <==> q != "" && a != ""
           && (TailOf(Split(a, '/'), Split(q, '/')) || TailOf(Split(q, '/'), Split(a, '/')))
    ensures TransferMatches(queued, active) <==> TransferMatches(active, queued)
  {
    var (q, a) := (NormalizedTransferName(queued), NormalizedTransferName(active));
    EndsByParts(q, a);
    EndsByParts(a, q);
  }

  // ----- sums -----

  function SumSizes(files: seq<TransferFile>): nat {
    if files == [] then 0 else SumSizes(files[..|files| - 1]) + files[|files| - 1].size
  }

  function SumBytes(files: seq<TransferFile>): nat {
    if files == [] then 0 else SumBytes(files[..|files| - 1]) + files[|files| - 1].bytes
  }

  /** The bytes of the transfers that are marked. */
  function MarkedBytes(active: seq<ActiveTransfer>, marked: seq<bool>): nat
    requires |marked| == |active|
  {
    if active == [] then 0
    else (if marked[0] then active[0].bytes else 0) + MarkedBytes(active[1..], marked[1..])
  }

  function TotalBytes(active: seq<ActiveTransfer>): nat {
    if active == [] then 0 else active[0].bytes + TotalBytes(active[1..])
  }

  lemma {:induction false} MarkAnother(active: seq<ActiveTransfer>, marked: seq<bool>, i: nat)
    requires |marked| == |active| && i < |active| && !marked[i]
    ensures MarkedBytes(active, marked[i := true]) == MarkedBytes(active, marked) + active[i].bytes
  {
    var now := marked[i := true];
    if i == 0 {
      assert now[1..] == marked[1..];
    } else {
      assert now[1..] == marked[1..][i - 1 := true];
      MarkAnother(active[1..], marked[1..], i - 1);
    }
  }

  lemma {:induction false} NothingMarked(active: seq<ActiveTransfer>, marked: seq<bool>)
    requires |marked| == |active| && forall i :: 0 <= i < |marked| ==> !marked[i]
    ensures MarkedBytes(active, marked) == 0
  {
    if active != [] { NothingMarked(active[1..], marked[1..]); }
  }

  lemma {:induction false} MarkedAtMostTotal(active: seq<ActiveTransfer>, marked: seq<bool>)
    requires |marked| == |active|
    ensures MarkedBytes(active, marked) <= TotalBytes(active)
  {
    if active != [] { MarkedAtMostTotal(active[1..], marked[1..]); }
  }

  lemma {:induction false} SumsOrdered(files: seq<TransferFile>)
    requires forall f <- files :: f.bytes <= f.size
    ensures SumBytes(files) <= SumSizes(files)
  {
    if files != [] { SumsOrdered(files[..|files| - 1]); }
  }

  // ----- the snapshot -----

  function Uploaded(size: u64, bytes: u64): u64 {
    if size == 0 then bytes else Min(bytes, size)
  }

  function Percentage(size: u64, uploaded: u64, reported: real): (r: real)
    ensures 0.0 <= r <= 100.0
  {
    Clamp(if reported > 0.0 then reported
          else if size == 0 then 0.0 else uploaded as real * 100.0 / size as real)
  }

  /** What a snapshot says of a queue item: how much of it is uploaded, by the transfer it is
      credited with. */
  ghost predicate QueueFile(f: TransferFile, item: QueueItem, active: Option<ActiveTransfer>) {
    && f.id == item.id && f.name == item.name && f.size == item.size && f.tries == item.tries && FileFine(f)
    && match active
       case None =>
         && f.bytes == 0 && f.percentage == Percentage(item.size, 0, 0.0) && f.speed == 0.0 && f.eta == None
         && f.uploading == item.uploading
       case Some(t) =>
         && f.bytes == Uploaded(item.size, t.bytes) && f.percentage == Percentage(item.size, f.bytes, t.percentage)
         && f.speed == RealMax(t.speedAvg, t.speed) && f.eta == t.eta && f.uploading
  }

  /** The same of a transfer without a queue item. */
  ghost predicate ActiveFile(f: TransferFile, t: ActiveTransfer) {
    && f.id == "null" && f.name == t.name && f.size == t.size && f.bytes == Uploaded(t.size, t.bytes) && FileFine(f)
    && f.percentage == Percentage(t.size, f.bytes, t.percentage)
    && f.speed == RealMax(t.speedAvg, t.speed) && f.eta == t.eta && f.uploading && f.tries == 0
  }

  method MakeQueueFile(item: QueueItem, active: Option<ActiveTransfer>) returns (f: TransferFile)
    ensures QueueFile(f, item, active)
  {
    match active {
      case None =>
        f := TransferFile(item.id, item.name, item.size, 0, Percentage(item.size, 0, 0.0), 0.0, None, item.uploading,
                          item.tries);
      case Some(t) =>
        var uploaded := Uploaded(item.size, t.bytes);
        f := TransferFile(item.id, item.name, item.size, uploaded, Percentage(item.size, uploaded, t.percentage),
                          RealMax(t.speedAvg, t.speed), t.eta, true, item.tries);
    }
  }

  method MakeActiveFile(t: ActiveTransfer) returns (f: TransferFile)
    ensures ActiveFile(f, t)
  {
    var uploaded := Uploaded(t.size, t.bytes);
    f := TransferFile("null", t.name, t.size, uploaded, Percentage(t.size, uploaded, t.percentage),
                      RealMax(t.speedAvg, t.speed), t.eta, true, 0);
  }

  function RealMax(a: real, b: real): real { if a >= b then a else b }

  predicate FileFine(f: TransferFile) {
    0.0 <= f.percentage <= 100.0 && (f.size > 0 ==> f.bytes <= f.size)
  }

  /** What every snapshot says about its own files and counters. */
  predicate Built(s: TransferSnapshot) {
    && s.queuedBytes == Saturate(SumSizes(s.files)) && s.transferredBytes == Saturate(SumBytes(s.files))
    && |s.files| <= s.queued
    && (forall f <- s.files :: FileFine(f))
    && 0.0 <= s.percentage <= 100.0
    && (s.synced <==> s.queued == 0 && s.uploading == 0 && s.errors == 0 && !s.outOfSpace)
    && (s.queuedBytes == 0 && s.queued == 0 && s.uploading == 0 && s.errors == 0 ==> s.percentage == 100.0)
  }

  /** While every size is known, no more is transferred than queued. */
  lemma TransferredWithinQueued(s: TransferSnapshot)
    requires Built(s) && forall f <- s.files :: f.size > 0
    ensures s.transferredBytes <= s.queuedBytes
  {
    SumsOrdered(s.files);
  }

  /** The transfer an item is credited with: the first matching one that no earlier item has. */
  ghost predicate Credited(item: QueueItem, credit: Option<nat>, earlier: set<nat>, active: seq<ActiveTransfer>) {
    match credit
    case Some(j) =>
      && j < |active| && j !in earlier && TransferMatches(item.name, active[j].name)
      && forall k :: 0 <= k < j && TransferMatches(item.name, active[k].name) ==> k in earlier
    case None => forall k :: 0 <= k < |active| && TransferMatches(item.name, active[k].name) ==> k in earlier
  }

  function Credits(credits: seq<Option<nat>>): set<nat> {
    set c | c in credits && c.Some? :: c.value
  }

  function Lookup(active: seq<ActiveTransfer>, credit: Option<nat>): Option<ActiveTransfer>
    requires credit.Some? ==> credit.value < |active|
  {
    if credit.Some? then Some(active[credit.value]) else None
  }

  /** The queue so far: its files, whom they are credited to, and the transfers marked for it. */
  ghost predicate Matched(queue: seq<QueueItem>, active: seq<ActiveTransfer>, files: seq<TransferFile>,
                          credits: seq<Option<nat>>, marked: seq<bool>) {
    && |files| == |credits| == |queue| && |marked| == |active|
    && (forall j :: 0 <= j < |active| ==> (marked[j] <==> j in Credits(credits)))
    && (forall i :: 0 <= i < |queue| ==> Credited(queue[i], credits[i], Credits(credits[..i]), active))
    && (forall i :: 0 <= i < |queue| ==> FileOf(files[i], queue[i], credits[i], active))
  }

  ghost predicate FileOf(file: TransferFile, item: QueueItem, credit: Option<nat>, active: seq<ActiveTransfer>) {
    && (credit.Some? ==> credit.value < |active|)
    && QueueFile(file, item, if credit.Some? then Some(active[credit.value]) else None)
  }

  method FindActive(name: string, active: seq<ActiveTransfer>, matched: array<bool>) returns (r: Option<nat>)
    requires matched.Length == |active|
    ensures r.Some? ==> r.value < |active| && !matched[r.value] && TransferMatches(name, active[r.value].name)
    ensures forall k :: 0 <= k < (if r.Some? then r.value else |active|) && TransferMatches(name, active[k].name) ==>
              matched[k]
  {
    for i := 0 to |active|
      invariant forall k :: 0 <= k < i && TransferMatches(name, active[k].name) ==> matched[k]
    {
      if !matched[i] && TransferMatches(name, active[i].name) { return Some(i); }
    }
    r := None;
  }

  method MatchQueue(queue: seq<QueueItem>, active: seq<ActiveTransfer>)
    returns (files: seq<TransferFile>, queuedBytes: u64, transferredBytes: u64, marked: seq<bool>,
             ghost credits: seq<Option<nat>>)
    ensures Matched(queue, active, files, credits, marked)
    ensures queuedBytes == Saturate(SumSizes(files)) && transferredBytes == Saturate(SumBytes(files))
    ensures SumBytes(files) <= MarkedBytes(active, marked)
  {
    var matched := new bool[|active|](_ => false);
    files, queuedBytes, transferredBytes, credits := [], 0, 0, [];
    NothingMarked(active, matched[..]);
    for i := 0 to |queue|
      invariant Matched(queue[..i], active, files, credits, matched[..])
      invariant queuedBytes == Saturate(SumSizes(files)) && transferredBytes == Saturate(SumBytes(files))
      invariant SumBytes(files) <= MarkedBytes(active, matched[..])
    {
      var found;
      files, found := MatchNext(queue, i, active, matched, files, credits);
      credits := credits + [found];
      queuedBytes, transferredBytes := AddFile(files, queuedBytes, transferredBytes);
    }
    assert queue[..|queue|] == queue;
    marked := matched[..];
  }

  method MatchNext(queue: seq<QueueItem>, i: nat, active: seq<ActiveTransfer>, matched: array<bool>,
                   files: seq<TransferFile>, ghost credits: seq<Option<nat>>)
    returns (more: seq<TransferFile>, found: Option<nat>)
    requires i < |queue| && matched.Length == |active|
    requires Matched(queue[..i], active, files, credits, matched[..])
    requires SumBytes(files) <= MarkedBytes(active, matched[..])
    modifies matched
    ensures Matched(queue[..i + 1], active, more, credits + [found], matched[..])
    ensures more != [] && more[..|more| - 1] == files && SumBytes(more) <= MarkedBytes(active, matched[..])
  {
    ghost var before := matched[..];
    found := MatchItem(queue[i], active, matched);
    var file := MakeFile(queue[i], active, found);
    MatchAnother(queue, i, active, files, credits, before, found, file);
    more := files + [file];
    AnotherFile(more, queue[i], active, found);
  }

  /** The running totals with the last file added. */
  method AddFile(files: seq<TransferFile>, queuedBytes: u64, transferredBytes: u64) returns (q: u64, t: u64)
    requires files != []
    requires queuedBytes == Saturate(SumSizes(files[..|files| - 1]))
             && transferredBytes == Saturate(SumBytes(files[..|files| - 1]))
    ensures q == Saturate(SumSizes(files)) && t == Saturate(SumBytes(files))
  {
    q := Saturate(queuedBytes + files[|files| - 1].size);
    t := Saturate(transferredBytes + files[|files| - 1].bytes);
  }

  method MakeFile(item: QueueItem, active: seq<ActiveTransfer>, credit: Option<nat>) returns (f: TransferFile)
    requires credit.Some? ==> credit.value < |active|
    ensures FileOf(f, item, credit, active)
  {
    f := MakeQueueFile(item, Lookup(active, credit));
  }

  method MatchItem(item: QueueItem, active: seq<ActiveTransfer>, matched: array<bool>) returns (found: Option<nat>)
    requires matched.Length == |active|
    modifies matched
    ensures found.Some? ==>
              found.value < |active| && !old(matched[found.value])
              && TransferMatches(item.name, active[found.value].name)
    ensures forall k ::
              0 <= k < (if found.Some? then found.value else |active|) && TransferMatches(item.name, active[k].name) ==>
                old(matched[k])
    ensures matched[..] == if found.Some? then old(matched[..])[found.value := true] else old(matched[..])
    ensures MarkedBytes(active, matched[..])
         == MarkedBytes(active, old(matched[..])) + if found.Some? then active[found.value].bytes else 0
  {
    found := FindActive(item.name, active, matched);
    if found.Some? {
      ghost var before := matched[..];
      MarkAnother(active, before, found.value);
      matched[found.value] := true;
      assert matched[..] == before[found.value := true];
    }
  }

  lemma MatchAnother(queue: seq<QueueItem>, i: nat, active: seq<ActiveTransfer>, files: seq<TransferFile>,
                     credits: seq<Option<nat>>, marked: seq<bool>, found: Option<nat>, file: TransferFile)
    requires i < |queue| && FileOf(file, queue[i], found, active) && Matched(queue[..i], active, files, credits, marked)
    requires found.Some? ==>
              found.value < |active| && !marked[found.value] && TransferMatches(queue[i].name, active[found.value].name)
    requires forall k ::
               0 <= k < (if found.Some? then found.value else |active|)
               && TransferMatches(queue[i].name, active[k].name) ==>
                 marked[k]
    ensures Matched(queue[..i + 1], active, files + [file], credits + [found],
                    if found.Some? then marked[found.value := true] else marked)
  {
    var more := credits + [found];
    assert Credits(more) == Credits(credits) + if found.Some? then {found.value} else {};
    assert more[..i] == credits;
    assert Credited(queue[i], found, Credits(credits), active);
    forall j | 0 <= j < i ensures FileOf(files[j], queue[j], credits[j], active) {
      assert FileOf(files[j], queue[..i][j], credits[j], active);
    }
    forall j | 0 <= j < i ensures Credited(queue[j], more[j], Credits(more[..j]), active) {
      assert more[..j] == credits[..j] && queue[..i][j] == queue[j];
      assert Credited(queue[..i][j], credits[j], Credits(credits[..j]), active);
    }
  }

  lemma AnotherFile(files: seq<TransferFile>, item: QueueItem, active: seq<ActiveTransfer>, found: Option<nat>)
    requires found.Some? ==> found.value < |active|
    requires files != [] && FileOf(files[|files| - 1], item, found, active)
    ensures SumBytes(files) <= SumBytes(files[..|files| - 1]) + if found.Some? then active[found.value].bytes else 0
  {
  }

  function CountMarked(marked: seq<bool>): (n: nat)
    ensures n <= |marked|
  {
    if marked == [] then 0 else (if marked[0] then 1 else 0) + CountMarked(marked[1..])
  }

  /** The first unmarked transfers, in order: as many as were asked for, or all there are. */
  ghost predicate FirstUnmarked(extra: seq<nat>, marked: seq<bool>, wanted: nat) {
    && |extra| <= wanted
    && (forall i :: 0 <= i < |extra| ==> extra[i] < |marked| && !marked[extra[i]])
    && (forall i, j :: 0 <= i < j < |extra| ==> extra[i] < extra[j])
    && (forall k :: 0 <= k < |marked| && !marked[k] && k !in extra ==>
        |extra| == wanted && forall i :: 0 <= i < |extra| ==> extra[i] < k)
  }

  /** The transfers that are being uploaded without a queue item. */
  method AppendUnmatched(active: seq<ActiveTransfer>, matched: seq<bool>, missing: nat,
                         queued: seq<TransferFile>, queuedBytes: u64, transferredBytes: u64)
    returns (files: seq<TransferFile>, q: u64, t: u64, ghost extra: seq<nat>)
    requires |matched| == |active|
    requires queuedBytes == Saturate(SumSizes(queued)) && transferredBytes == Saturate(SumBytes(queued))
    requires SumBytes(queued) <= MarkedBytes(active, matched)
    ensures FirstUnmarked(extra, matched, missing) && |files| == |queued| + |extra| && queued == files[..|queued|]
    ensures forall i :: 0 <= i < |extra| ==> ActiveFile(files[|queued| + i], active[extra[i]])
    ensures q == Saturate(SumSizes(files)) && t == Saturate(SumBytes(files)) && SumBytes(files) <= TotalBytes(active)
  {
    files, q, t, extra := queued, queuedBytes, transferredBytes, [];
    ghost var marked := matched;
    var j := 0;
    while j < |active| && |files| < |queued| + missing
      invariant 0 <= j <= |active| && |extra| <= missing && Taken(queued, files, extra, active, matched, j)
      invariant q == Saturate(SumSizes(files)) && t == Saturate(SumBytes(files))
      invariant |marked| == |active| && forall k :: j <= k < |active| ==> marked[k] == matched[k]
      invariant SumBytes(files) <= MarkedBytes(active, marked)
    {
      if !matched[j] {
        files, q, t := TakeActive(active, matched, j, queued, files, q, t, extra, marked);
        extra, marked := extra + [j], marked[j := true];
      }
      j := j + 1;
    }
    MarkedAtMostTotal(active, marked);
    AllTaken(queued, files, extra, active, matched, j, missing);
  }

  /** One more unmatched transfer. */
  method TakeActive(active: seq<ActiveTransfer>, matched: seq<bool>, j: nat, queued: seq<TransferFile>,
                    files: seq<TransferFile>, q: u64, t: u64, ghost extra: seq<nat>, ghost marked: seq<bool>)
    returns (more: seq<TransferFile>, q': u64, t': u64)
    requires |matched| == |marked| == |active| && j < |active| && !matched[j] && !marked[j]
    requires Taken(queued, files, extra, active, matched, j)
    requires q == Saturate(SumSizes(files)) && t == Saturate(SumBytes(files))
    requires SumBytes(files) <= MarkedBytes(active, marked)
    ensures Taken(queued, more, extra + [j], active, matched, j + 1) && |more| == |files| + 1
    ensures q' == Saturate(SumSizes(more)) && t' == Saturate(SumBytes(more))
    ensures SumBytes(more) <= MarkedBytes(active, marked[j := true])
  {
    MarkAnother(active, marked, j);
    var file := MakeActiveFile(active[j]);
    TakeAnother(queued, files, extra, active, matched, j, file);
    more := files + [file];
    AnotherActive(more, active[j]);
    q', t' := AddFile(more, q, t);
  }

  lemma AllTaken(queued: seq<TransferFile>, files: seq<TransferFile>, extra: seq<nat>, active: seq<ActiveTransfer>,
                 matched: seq<bool>, j: nat, wanted: nat)
    requires |matched| == |active| && Taken(queued, files, extra, active, matched, j)
    requires |extra| <= wanted && (j >= |active| || |extra| == wanted)
    ensures FirstUnmarked(extra, matched, wanted)
  {
  }

  /** The unmarked transfers before `j`, in order, and their files behind those of the queue. */
  ghost predicate Taken(queued: seq<TransferFile>, files: seq<TransferFile>, extra: seq<nat>,
                        active: seq<ActiveTransfer>, matched: seq<bool>, j: nat)
    requires |matched| == |active|
  {
    && |files| == |queued| + |extra| && queued == files[..|queued|]
    && (forall i :: 0 <= i < |extra| ==> extra[i] < j && extra[i] < |active| && !matched[extra[i]])
    && (forall i, k :: 0 <= i < k < |extra| ==> extra[i] < extra[k])
    && (forall k :: 0 <= k < j && k < |active| && !matched[k] ==> k in extra)
    && (forall i :: 0 <= i < |extra| ==> ActiveFile(files[|queued| + i], active[extra[i]]))
  }

  lemma TakeAnother(queued: seq<TransferFile>, files: seq<TransferFile>, extra: seq<nat>, active: seq<ActiveTransfer>,
                    matched: seq<bool>, j: nat, file: TransferFile)
    requires |matched| == |active| && j < |active| && ActiveFile(file, active[j]) && !matched[j]
             && Taken(queued, files, extra, active, matched, j)
    ensures Taken(queued, files + [file], extra + [j], active, matched, j + 1)
    ensures (files + [file])[..|files|] == files
  {
    assert (files + [file])[..|queued|] == files[..|queued|];
  }

  lemma AnotherActive(files: seq<TransferFile>, t: ActiveTransfer)
    requires files != [] && ActiveFile(files[|files| - 1], t)
    ensures SumBytes(files) <= SumBytes(files[..|files| - 1]) + t.bytes
  {
  }

  function CountUploading(files: seq<TransferFile>): (n: nat)
    ensures n <= |files|
  {
    if files == [] then 0 else (if files[0].uploading then 1 else 0) + CountUploading(files[1..])
  }

  function Overall(files: seq<TransferFile>, queuedBytes: u64, transferredBytes: u64, stats: DiskCacheStats)
    : TransferSnapshot
  {
    var queued := Max(|files|, Saturate(stats.uploadsQueued + stats.uploadsInProgress));
    var uploading := Max(CountUploading(files), stats.uploadsInProgress);
    var errors := stats.erroredFiles;
    TransferSnapshot(
      files, queued, uploading, queuedBytes, transferredBytes,
      if queuedBytes == 0 && queued == 0 && uploading == 0 && errors == 0 then 100.0
      else if queuedBytes == 0 then 0.0
      else Clamp(transferredBytes as real * 100.0 / queuedBytes as real),
      errors, stats.outOfSpace, queued == 0 && uploading == 0 && errors == 0 && !stats.outOfSpace)
  }

  /** The snapshot, and the transfers that its files are credited with: queue items first, each
      with the first matching transfer still free, then as many of the others as are being uploaded
      without a queue item. No transfer is credited twice, so no byte is counted twice. */
  method BuildTransferSnapshot(queue: seq<QueueItem>, stats: DiskCacheStats, active: seq<ActiveTransfer>)
    returns (s: TransferSnapshot, queued: seq<TransferFile>, marked: seq<bool>, ghost credits: seq<Option<nat>>,
             ghost extra: seq<nat>)
    ensures Built(s) && SumBytes(s.files) <= TotalBytes(active)
    ensures s == Overall(s.files, Saturate(SumSizes(s.files)), Saturate(SumBytes(s.files)), stats)
    ensures Matched(queue, active, queued, credits, marked)
    ensures |s.files| == |queued| + |extra| && queued <= s.files
    ensures FirstUnmarked(extra, marked, Missing(stats, marked))
    ensures forall i :: 0 <= i < |extra| ==> ActiveFile(s.files[|queued| + i], active[extra[i]])
    ensures s.synced <==> queue == [] && stats == DiskCacheStats(0, 0, 0, false)
  {
    var queuedBytes, transferredBytes;
    queued, queuedBytes, transferredBytes, marked, credits := MatchQueue(queue, active);
    QueueFine(queue, active, queued, credits, marked);
    s, extra := Complete(stats, active, queued, queuedBytes, transferredBytes, marked);
  }

  lemma QueueFine(queue: seq<QueueItem>, active: seq<ActiveTransfer>, files: seq<TransferFile>,
                  credits: seq<Option<nat>>, marked: seq<bool>)
    requires Matched(queue, active, files, credits, marked)
    ensures |files| == |queue| && forall f <- files :: FileFine(f)
  {
    forall i | 0 <= i < |files| ensures FileFine(files[i]) {
      assert FileOf(files[i], queue[i], credits[i], active);
    }
  }

  method Complete(stats: DiskCacheStats, active: seq<ActiveTransfer>, queued: seq<TransferFile>,
                  queuedBytes: u64, transferredBytes: u64, marked: seq<bool>)
    returns (s: TransferSnapshot, ghost extra: seq<nat>)
    requires |marked| == |active| && forall f <- queued :: FileFine(f)
    requires queuedBytes == Saturate(SumSizes(queued)) && transferredBytes == Saturate(SumBytes(queued))
    requires SumBytes(queued) <= MarkedBytes(active, marked)
    ensures Built(s) && SumBytes(s.files) <= TotalBytes(active)
    ensures s == Overall(s.files, Saturate(SumSizes(s.files)), Saturate(SumBytes(s.files)), stats)
    ensures |s.files| == |queued| + |extra| && queued <= s.files
    ensures FirstUnmarked(extra, marked, Missing(stats, marked))
    ensures forall i :: 0 <= i < |extra| ==> ActiveFile(s.files[|queued| + i], active[extra[i]])
    ensures s.synced <==> queued == [] && stats == DiskCacheStats(0, 0, 0, false)
  {
    var files, allQueued, allTransferred;
    files, allQueued, allTransferred, extra :=
      AppendUnmatched(active, marked, Missing(stats, marked), queued, queuedBytes, transferredBytes);
    FilesFine(active, queued, files, extra);
    s := Summarise(files, allQueued, allTransferred, stats);
  }

  /** How many uploads have no queue item yet. */
  function Missing(stats: DiskCacheStats, marked: seq<bool>): nat {
    if CountMarked(marked) <= stats.uploadsInProgress then stats.uploadsInProgress - CountMarked(marked) else 0
  }

  method Summarise(files: seq<TransferFile>, queuedBytes: u64, transferredBytes: u64, stats: DiskCacheStats)
    returns (s: TransferSnapshot)
    requires queuedBytes == Saturate(SumSizes(files)) && transferredBytes == Saturate(SumBytes(files))
    requires forall f <- files :: FileFine(f)
    ensures s == Overall(files, queuedBytes, transferredBytes, stats) && Built(s) && s.files == files
    ensures s.synced <==> files == [] && stats == DiskCacheStats(0, 0, 0, false)
  {
    s := Overall(files, queuedBytes, transferredBytes, stats);
    OverallBuilt(files, queuedBytes, transferredBytes, stats);
  }

  lemma FilesFine(active: seq<ActiveTransfer>, queued: seq<TransferFile>, files: seq<TransferFile>, extra: seq<nat>)
    requires |files| == |queued| + |extra| && queued == files[..|queued|] && forall f <- queued :: FileFine(f)
    requires forall i :: 0 <= i < |extra| ==> extra[i] < |active| && ActiveFile(files[|queued| + i], active[extra[i]])
    ensures forall f <- files :: FileFine(f)
  {
    forall i | 0 <= i < |files| ensures FileFine(files[i]) {
      if i < |queued| {
        assert files[i] == queued[i];
      } else {
        assert ActiveFile(files[|queued| + (i - |queued|)], active[extra[i - |queued|]]);
      }
    }
  }

  lemma OverallBuilt(files: seq<TransferFile>, queuedBytes: u64, transferredBytes: u64, stats: DiskCacheStats)
    requires queuedBytes == Saturate(SumSizes(files)) && transferredBytes == Saturate(SumBytes(files))
    requires forall f <- files :: FileFine(f)
    ensures Built(Overall(files, queuedBytes, transferredBytes, stats))
    ensures Overall(files, queuedBytes, transferredBytes, stats).synced
            <==> files == [] && stats == DiskCacheStats(0, 0, 0, false)
  {
  }
}
