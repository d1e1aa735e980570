/** The progress of one transfer session: bytes of files that left the queue are kept, so that
    what the user sees does not go back. */
module ProgressHistory {
  import opened Common
  import opened Transfer

  type Known = map<string, (u64, u64)>

  /** The fields of a progress history. */
  datatype Ledger = Ledger(active: bool, completed: u64, known: Known)

  const FRESH_LEDGER := Ledger(false, 0, map[])

  predicate HasWork(s: TransferSnapshot) {
    s.queued > 0 || s.uploading > 0 || s.errors > 0 || s.outOfSpace
  }

  function FileKey(f: TransferFile): string {
    var name := NormalizedTransferName(f.name);
    if name != "" then "name:" + name else "id:" + f.id
  }

  function Keys(files: seq<TransferFile>): set<string> {
    set f | f in files :: FileKey(f)
  }

  /** What a file counts once it is complete. */
  function Worth(entry: (u64, u64)): u64 {
    Max(entry.0, entry.1)
  }

  /** The worth of all known files, in any order. */
  ghost function Sum(known: Known): nat {
    if known == map[] then 0
    else
      var k :| k in known;
      Worth(known[k]) + Sum(known - {k})
  }

  lemma {:induction false} SumWithout(known: Known, k: string)
    requires k in known
    ensures Sum(known) == Worth(known[k]) + Sum(known - {k})
    decreases |known|
  {
    var j :| j in known && Sum(known) == Worth(known[j]) + Sum(known - {j});
    if j != k {
      Smaller(known, j);
      Smaller(known, k);
      SumWithout(known - {j}, k);
      SumWithout(known - {k}, j);
      assert known - {j} - {k} == known - {k} - {j};
    }
  }

  lemma Smaller(known: Known, k: string)
    requires k in known
    ensures |known - {k}| < |known|
  {
    assert (known - {k}).Keys == known.Keys - {k};
    assert |known.Keys - {k}| == |known.Keys| - 1;
  }

  lemma SumWith(known: Known, k: string, entry: (u64, u64))
    ensures Sum(known[k := entry]) == Worth(entry) + Sum(known - {k})
  {
    SumWithout(known[k := entry], k);
    assert known[k := entry] - {k} == known - {k};
  }

  // ----- the entries of one snapshot -----

  function Upsert(known: Known, f: TransferFile): Known {
    var k := FileKey(f);
    var entry := if k in known then known[k] else (f.size, f.bytes);
    known[k := (Max(entry.0, f.size), Max(entry.1, f.bytes))]
  }

  function UpsertAll(known: Known, files: seq<TransferFile>): Known {
    if files == [] then known else Upsert(UpsertAll(known, files[..|files| - 1]), files[|files| - 1])
  }

  lemma UpsertGrows(known: Known, f: TransferFile)
    ensures Sum(Upsert(known, f)) >= Sum(known)
  {
    var k := FileKey(f);
    SumWith(known, k, Upsert(known, f)[k]);
    if k in known {
      SumWithout(known, k);
    } else {
      assert known - {k} == known;
    }
  }

  lemma {:induction false} UpsertAllGrows(known: Known, files: seq<TransferFile>)
    ensures Sum(UpsertAll(known, files)) >= Sum(known)
    ensures UpsertAll(known, files).Keys == known.Keys + Keys(files)
  {
    if files != [] {
      var n := |files| - 1;
      UpsertAllGrows(known, files[..n]);
      UpsertGrows(UpsertAll(known, files[..n]), files[n]);
      assert Keys(files) == Keys(files[..n]) + {FileKey(files[n])} by {
        assert files == files[..n] + [files[n]];
      }
    }
  }

  // ----- smoothing -----

  function Retained(known: Known, keys: set<string>): Known {
    map k | k in known && k in keys :: known[k]
  }

  function Gone(known: Known, keys: set<string>): Known {
    map k | k in known && k !in keys :: known[k]
  }

  ghost function Credit(completed: u64, known: Known): u64 {
    Saturate(completed + Sum(known))
  }

  /** The ledger at the start of a snapshot: a new one when work begins after a pause. */
  function Begun(l: Ledger, s: TransferSnapshot): Ledger {
    if HasWork(s) && !l.active then Ledger(true, 0, map[]) else l
  }

  /** Files that are no longer there are complete, unless no file is listed at all while there
      is work. */
  predicate Retires(s: TransferSnapshot) {
    s.files != [] || !HasWork(s)
  }

  ghost function Retired(l: Ledger, s: TransferSnapshot): Ledger {
    if Retires(s) then
      l.(completed := Credit(l.completed, Gone(l.known, Keys(s.files))), known := Retained(l.known, Keys(s.files)))
    else l
  }

  ghost function Recorded(l: Ledger, s: TransferSnapshot): Ledger {
    var r := Retired(l, s);
    r.(known := UpsertAll(r.known, s.files))
  }

  function Closed(l: Ledger, s: TransferSnapshot): Ledger {
    if HasWork(s) then l else Ledger(false, l.completed, map[])
  }

  /** The snapshot with the completed bytes added on both sides. */
  function Shown(s: TransferSnapshot, completed: u64): TransferSnapshot {
    if completed == 0 then s
    else
      var queued := Saturate(s.queuedBytes + completed);
      var transferred := Saturate(s.transferredBytes + completed);
      s.(queuedBytes := queued, transferredBytes := transferred,
         percentage := if HasWork(s) && s.queuedBytes == 0 then 0.0
                       else if queued == 0 then 100.0
                       else Clamp(transferred as real * 100.0 / queued as real))
  }

  ghost function Smoothed(l: Ledger, s: TransferSnapshot): (Ledger, TransferSnapshot) {
    var b := Begun(l, s);
    if !b.active then (b, s)
    else
      var r := Recorded(b, s);
      (Closed(r, s), Shown(s, r.completed))
  }

  class TransferProgressHistory {
    var active: bool
    var completedBytes: u64
    var knownFiles: Known

    function Value(): Ledger
      reads this
    {
      Ledger(active, completedBytes, knownFiles)
    }

    constructor ()
      ensures Value() == FRESH_LEDGER
    {
      active, completedBytes, knownFiles := false, 0, map[];
    }

    method Smooth(s: TransferSnapshot) returns (r: TransferSnapshot)
      modifies this
      ensures (Value(), r) == Smoothed(old(Value()), s)
    {
      r := s;
      var hasWork := HasWork(s);
      if hasWork && !active {
        active, completedBytes, knownFiles := true, 0, map[];
      }
      if active {
        if s.files != [] || !hasWork {
          Retire(Keys(s.files));
        }
        RecordFiles(s.files);
        if completedBytes > 0 {
          var queued := Saturate(s.queuedBytes + completedBytes);
          var transferred := Saturate(s.transferredBytes + completedBytes);
          r := s.(queuedBytes := queued, transferredBytes := transferred,
                  percentage := if hasWork && s.queuedBytes == 0 then 0.0
                                else if queued == 0 then 100.0
                                else Clamp(transferred as real * 100.0 / queued as real));
        }
        if !hasWork {
          active, knownFiles := false, map[];
        }
      }
    }

    /** Every known file that is not current is complete. */
    method Retire(current: set<string>)
      modifies this
      ensures active == old(active) && knownFiles == Retained(old(knownFiles), current)
      ensures completedBytes == Credit(old(completedBytes), Gone(old(knownFiles), current))
    {
      var left := knownFiles.Keys - current;
      while left != {}
        invariant active == old(active) && left == knownFiles.Keys - current
        invariant Retained(knownFiles, current) == Retained(old(knownFiles), current)
        invariant Credit(completedBytes, Gone(knownFiles, current))
               == Credit(old(completedBytes), Gone(old(knownFiles), current))
        decreases |left|
      {
        var key :| key in left;
        RetireOne(knownFiles, current, key, completedBytes);
        completedBytes := Saturate(completedBytes + Worth(knownFiles[key]));
        knownFiles := knownFiles - {key};
        left := left - {key};
      }
      NothingLeft(knownFiles, current);
    }

    method RecordFiles(files: seq<TransferFile>)
      modifies this`knownFiles
      ensures knownFiles == UpsertAll(old(knownFiles), files)
    {
      for i := 0 to |files|
        invariant knownFiles == UpsertAll(old(knownFiles), files[..i])
      {
        var key := FileKey(files[i]);
        var entry := if key in knownFiles then knownFiles[key] else (files[i].size, files[i].bytes);
        knownFiles := knownFiles[key := (Max(entry.0, files[i].size), Max(entry.1, files[i].bytes))];
        assert files[..i + 1][..i] == files[..i];
      }
      assert files[..|files|] == files;
    }
  }

  lemma NothingLeft(known: Known, current: set<string>)
    requires known.Keys - current == {}
    ensures Gone(known, current) == map[] && Retained(known, current) == known
  {
    assert forall k <- known :: k in current || k in known.Keys - current;
  }

  lemma RetireOne(known: Known, current: set<string>, key: string, completed: u64)
    requires key in known && key !in current
    ensures (known - {key}).Keys == known.Keys - {key}
    ensures Retained(known - {key}, current) == Retained(known, current)
    ensures Credit(Saturate(completed + Worth(known[key])), Gone(known - {key}, current))
         == Credit(completed, Gone(known, current))
  {
    SumWithout(Gone(known, current), key);
    assert Gone(known, current) - {key} == Gone(known - {key}, current);
  }

  // ----- what one session keeps -----

  /** The bytes of everything seen in the session. */
  ghost function Potential(l: Ledger): nat {
    l.completed + Sum(l.known)
  }

  lemma {:induction false} SumSplit(known: Known, keys: set<string>)
    ensures Sum(known) == Sum(Retained(known, keys)) + Sum(Gone(known, keys))
    decreases |known|
  {
    if k :| k in known {
      Smaller(known, k);
      SumWithout(known, k);
      SumSplit(known - {k}, keys);
      if k in keys {
        SumWithout(Retained(known, keys), k);
        assert Retained(known, keys) - {k} == Retained(known - {k}, keys);
        assert Gone(known, keys) == Gone(known - {k}, keys);
      } else {
        SumWithout(Gone(known, keys), k);
        assert Gone(known, keys) - {k} == Gone(known - {k}, keys);
        assert Retained(known, keys) == Retained(known - {k}, keys);
      }
    } else {
      assert Retained(known, keys) == map[] == Gone(known, keys);
    }
  }

  /** Within a session, what was completed together with all that is known never shrinks, and
      retiring a file moves its bytes without changing the total, unless a counter saturates. */
  lemma PotentialGrows(l: Ledger, s: TransferSnapshot)
    requires l.active && HasWork(s) && Potential(l) <= MAX
    ensures Potential(Retired(l, s)) == Potential(l)
    ensures Potential(Smoothed(l, s).0) >= Potential(l)
  {
    SumSplit(l.known, Keys(s.files));
    UpsertAllGrows(Retired(l, s).known, s.files);
  }

  /** At the first idle snapshot every known file has become complete, once; nothing is known
      any more, and what is shown is as much transferred as queued: all of it. */
  lemma IdleCompletesAll(l: Ledger, s: TransferSnapshot)
    requires l.active && !HasWork(s) && Built(s)
    ensures var (after, shown) := Smoothed(l, s);
      && after == Ledger(false, Credit(l.completed, l.known), map[])
      && shown.queuedBytes == shown.transferredBytes == after.completed && shown.percentage == 100.0
  {
    assert s.files == [] && Keys(s.files) == {};
    assert Gone(l.known, {}) == l.known;
    var completed := Credit(l.completed, l.known);
    if completed > 0 {
      Whole(completed);
    }
  }

  lemma Whole(n: u64)
    requires n > 0
    ensures n as real * 100.0 / n as real == 100.0
  {
  }

  /** A session that begins knows nothing of the one before. */
  lemma SessionsAreSeparate(l: Ledger, m: Ledger, s: TransferSnapshot)
    requires !l.active && !m.active && HasWork(s)
    ensures Smoothed(l, s) == Smoothed(m, s)
  {
  }

  // ----- what is shown does not go back -----

  /** The known sizes alone, as entries. */
  function Sizes(known: Known): Known {
    map k | k in known :: (known[k].0, 0)
  }

  lemma {:induction false} SumMonotone(a: Known, b: Known)
    requires forall k <- a :: k in b && Worth(a[k]) <= Worth(b[k])
    ensures Sum(a) <= Sum(b)
    decreases |a|
  {
    if k :| k in a {
      Smaller(a, k);
      SumWithout(a, k);
      SumWithout(b, k);
      SumMonotone(a - {k}, b - {k});
    }
  }

  predicate DistinctKeys(files: seq<TransferFile>) {
    forall i, j :: 0 <= i < j < |files| ==> FileKey(files[i]) != FileKey(files[j])
  }

  /** No listed file is smaller than it was last known to be. */
  predicate NonShrinking(known: Known, files: seq<TransferFile>) {
    forall f <- files :: FileKey(f) in known ==> known[FileKey(f)].0 <= f.size
  }

  lemma {:induction false} UpsertElsewhere(known: Known, files: seq<TransferFile>, k: string)
    requires k !in Keys(files)
    ensures UpsertAll(known, files) - {k} == UpsertAll(known - {k}, files)
    ensures k in UpsertAll(known, files) <==> k in known
    ensures k in known ==> UpsertAll(known, files)[k] == known[k]
  {
    if files != [] {
      var n := |files| - 1;
      assert files[n] in files && forall f <- files[..n] :: f in files;
      UpsertElsewhere(known, files[..n], k);
      UpsertOther(UpsertAll(known, files[..n]), files[n], k);
    }
  }

  lemma UpsertOther(known: Known, f: TransferFile, k: string)
    requires FileKey(f) != k
    ensures Upsert(known, f) - {k} == Upsert(known - {k}, f)
    ensures k in Upsert(known, f) <==> k in known
    ensures k in known ==> Upsert(known, f)[k] == known[k]
  {
  }

  /** With distinct keys and sizes that do not shrink, the known sizes of the listed files are
      their listed sizes. */
  lemma {:induction false} SizesOfListed(known: Known, files: seq<TransferFile>)
    requires DistinctKeys(files) && NonShrinking(known, files)
    ensures Sum(Sizes(UpsertAll(known, files))) == SumSizes(files) + Sum(Sizes(Gone(known, Keys(files))))
    decreases |files|
  {
    if files == [] {
      assert Gone(known, Keys(files)) == known;
    } else {
      var n := |files| - 1;
      var (f, k) := (files[n], FileKey(files[n]));
      ListedPrefix(known, files);
      UpsertElsewhere(known, files[..n], k);
      SizesOfListed(known - {k}, files[..n]);
      LastSized(UpsertAll(known, files[..n]), f);
    }
  }

  /** What holds of the listed files holds of those before the last, without its key. */
  lemma ListedPrefix(known: Known, files: seq<TransferFile>)
    requires files != [] && DistinctKeys(files) && NonShrinking(known, files)
    ensures var n := |files| - 1;
      var k := FileKey(files[n]);
      && DistinctKeys(files[..n]) && NonShrinking(known - {k}, files[..n])
      && (forall f <- files[..n] :: FileKey(f) != k)
      && (k in known ==> known[k].0 <= files[n].size)
      && Gone(known - {k}, Keys(files[..n])) == Gone(known, Keys(files))
  {
    var n := |files| - 1;
    var (f, k) := (files[n], FileKey(files[n]));
    assert files == files[..n] + [f] && f in files;
    LastKeyFresh(files);
    assert Keys(files) == Keys(files[..n]) + {k};
  }

  lemma LastSized(known: Known, f: TransferFile)
    requires FileKey(f) in known ==> known[FileKey(f)].0 <= f.size
    ensures Sum(Sizes(Upsert(known, f))) == f.size + Sum(Sizes(known - {FileKey(f)}))
  {
    var k := FileKey(f);
    SumWith(Sizes(known), k, (f.size, 0));
    assert Sizes(Upsert(known, f)) == Sizes(known)[k := (f.size, 0)];
    assert Sizes(known) - {k} == Sizes(known - {k});
  }

  lemma LastKeyFresh(files: seq<TransferFile>)
    requires files != [] && DistinctKeys(files)
    ensures FileKey(files[|files| - 1]) !in Keys(files[..|files| - 1])
  {
  }

  lemma {:induction false} UpsertKeepsSizes(known: Known, files: seq<TransferFile>)
    ensures forall k <- known :: k in UpsertAll(known, files) && known[k].0 <= UpsertAll(known, files)[k].0
  {
    if files != [] { UpsertKeepsSizes(known, files[..|files| - 1]); }
  }

  /** The bytes shown as queued once a snapshot with files was recorded. */
  ghost function Floor(l: Ledger): u64 {
    Saturate(l.completed + Sum(Sizes(l.known)))
  }

  /** A snapshot with files shows exactly the floor of its ledger. */
  lemma ShownIsFloor(l: Ledger, s: TransferSnapshot)
    requires HasWork(s) && Sized(l, s)
    ensures Smoothed(l, s).1.queuedBytes == Floor(Smoothed(l, s).0)
  {
    var b := Begun(l, s);
    var r := Retired(b, s);
    SizesOfListed(r.known, s.files);
    assert Gone(r.known, Keys(s.files)) == map[];
    assert Sizes(map[]) == map[];
  }

  /** No snapshot of a session lowers the floor: what leaves the queue is credited with at least
      its size, and without file details nothing changes. */
  lemma FloorRises(l: Ledger, s: TransferSnapshot)
    requires l.active && HasWork(s)
    ensures Floor(Smoothed(l, s).0) >= Floor(l) && Smoothed(l, s).0.active
  {
    if s.files != [] {
      DetailsRaiseFloor(l.completed, l.known, s.files);
    }
  }

  lemma DetailsRaiseFloor(completed: u64, known: Known, files: seq<TransferFile>)
    ensures var keys := Keys(files);
      Credit(completed, Gone(known, keys)) + Sum(Sizes(UpsertAll(Retained(known, keys), files)))
      >= Saturate(completed + Sum(Sizes(known)))
  {
    var keys := Keys(files);
    var (gone, kept) := (Gone(known, keys), Retained(known, keys));
    SizesSplit(known, keys);
    GoneCoversSizes(gone);
    RecordingKeepsSizes(kept, files);
    Raised(completed, known, gone, kept, UpsertAll(kept, files));
  }

  lemma Raised(completed: u64, known: Known, gone: Known, kept: Known, recorded: Known)
    requires Sum(Sizes(known)) == Sum(Sizes(kept)) + Sum(Sizes(gone))
    requires Sum(Sizes(gone)) <= Sum(gone) && Sum(Sizes(kept)) <= Sum(Sizes(recorded))
    ensures Credit(completed, gone) + Sum(Sizes(recorded)) >= Saturate(completed + Sum(Sizes(known)))
  {
  }

  lemma SizesSplit(known: Known, keys: set<string>)
    ensures Sum(Sizes(known)) == Sum(Sizes(Retained(known, keys))) + Sum(Sizes(Gone(known, keys)))
  {
    SumSplit(Sizes(known), keys);
    assert Retained(Sizes(known), keys) == Sizes(Retained(known, keys));
    assert Gone(Sizes(known), keys) == Sizes(Gone(known, keys));
  }

  lemma GoneCoversSizes(gone: Known)
    ensures Sum(Sizes(gone)) <= Sum(gone)
  {
    SumMonotone(Sizes(gone), gone);
  }

  lemma RecordingKeepsSizes(kept: Known, files: seq<TransferFile>)
    ensures Sum(Sizes(kept)) <= Sum(Sizes(UpsertAll(kept, files)))
  {
    UpsertKeepsSizes(kept, files);
    SumMonotone(Sizes(kept), Sizes(UpsertAll(kept, files)));
  }

  /** Snapshots of one session, and the ledger before and after each. */
  ghost predicate Session(ledgers: seq<Ledger>, snapshots: seq<TransferSnapshot>) {
    && |ledgers| == |snapshots| + 1
    && forall k :: 0 <= k < |snapshots| ==>
       HasWork(snapshots[k]) && ledgers[k + 1] == Smoothed(ledgers[k], snapshots[k]).0
  }

  /** A snapshot with details: distinct files, none smaller than it was last known to be. */
  ghost predicate Sized(l: Ledger, s: TransferSnapshot) {
    && s.queuedBytes == Saturate(SumSizes(s.files))
    && s.files != [] && DistinctKeys(s.files) && NonShrinking(Begun(l, s).known, s.files)
  }

  lemma {:induction false} FloorRisesOver(ledgers: seq<Ledger>, snapshots: seq<TransferSnapshot>, i: nat, j: nat)
    requires Session(ledgers, snapshots) && 0 < i <= j <= |snapshots|
    ensures ledgers[j].active && Floor(ledgers[i]) <= Floor(ledgers[j])
  {
    if i < j {
      FloorRisesOver(ledgers, snapshots, i, j - 1);
      FloorRises(ledgers[j - 1], snapshots[j - 1]);
    } else {
      StaysActive(ledgers[i - 1], snapshots[i - 1]);
    }
  }

  lemma StaysActive(l: Ledger, s: TransferSnapshot)
    requires HasWork(s)
    ensures Smoothed(l, s).0.active
  {
  }

  /** Within a session the queued bytes shown with file details never go back, whatever
      snapshots, with or without details, come between. */
  lemma QueuedNeverGoesBack(ledgers: seq<Ledger>, snapshots: seq<TransferSnapshot>, i: nat, j: nat)
    requires Session(ledgers, snapshots) && i < j < |snapshots|
    requires Sized(ledgers[i], snapshots[i]) && Sized(ledgers[j], snapshots[j])
    ensures Smoothed(ledgers[i], snapshots[i]).1.queuedBytes <= Smoothed(ledgers[j], snapshots[j]).1.queuedBytes
  {
    ShownIsFloor(ledgers[i], snapshots[i]);
    ShownIsFloor(ledgers[j], snapshots[j]);
    FloorRisesOver(ledgers, snapshots, i + 1, j + 1);
  }

  /** Nothing seen in a session is forgotten while its counters do not saturate. */
  lemma {:induction false} NothingForgotten(ledgers: seq<Ledger>, snapshots: seq<TransferSnapshot>, i: nat, j: nat)
    requires Session(ledgers, snapshots) && 0 < i <= j <= |snapshots|
    requires forall k :: i <= k < j ==> Potential(ledgers[k]) <= MAX
    ensures Potential(ledgers[i]) <= Potential(ledgers[j])
  {
    if i < j {
      NothingForgotten(ledgers, snapshots, i, j - 1);
      StaysActive(ledgers[j - 2], snapshots[j - 2]);
      PotentialGrows(ledgers[j - 1], snapshots[j - 1]);
    }
  }

  // ----- the transferred side -----

  /** Sizes and bytes exchanged. */
  function Mirrored(known: Known): Known {
    map k | k in known :: (known[k].1, known[k].0)
  }

  function MirroredFile(f: TransferFile): TransferFile {
    f.(size := f.bytes, bytes := f.size)
  }

  function MirroredFiles(files: seq<TransferFile>): seq<TransferFile> {
    seq(|files|, i requires 0 <= i < |files| => MirroredFile(files[i]))
  }

  function MirroredLedger(l: Ledger): Ledger {
    l.(known := Mirrored(l.known))
  }

  function MirroredSnapshot(s: TransferSnapshot): TransferSnapshot {
    s.(files := MirroredFiles(s.files), queuedBytes := s.transferredBytes, transferredBytes := s.queuedBytes)
  }

  lemma {:induction false} MirroredSum(known: Known)
    ensures Sum(Mirrored(known)) == Sum(known)
    decreases |known|
  {
    if k :| k in known {
      Smaller(known, k);
      SumWithout(known, k);
      SumWithout(Mirrored(known), k);
      MirroredSum(known - {k});
      assert Mirrored(known) - {k} == Mirrored(known - {k});
    } else {
      assert Mirrored(known) == map[] == known;
    }
  }

  lemma MirroredKeys(files: seq<TransferFile>)
    ensures Keys(MirroredFiles(files)) == Keys(files)
  {
    var mirrored := MirroredFiles(files);
    forall k ensures k in Keys(mirrored) <==> k in Keys(files) {
      if k in Keys(files) {
        var i :| 0 <= i < |files| && FileKey(files[i]) == k;
        assert mirrored[i] in mirrored && FileKey(mirrored[i]) == k;
      }
      if k in Keys(mirrored) {
        var i :| 0 <= i < |mirrored| && FileKey(mirrored[i]) == k;
        assert files[i] in files;
      }
    }
  }

  lemma MirroredPrefix(files: seq<TransferFile>)
    requires files != []
    ensures var n := |files| - 1;
      MirroredFiles(files)[..n] == MirroredFiles(files[..n]) && MirroredFiles(files)[n] == MirroredFile(files[n])
  {
  }

  lemma {:induction false} MirroredUpserts(known: Known, files: seq<TransferFile>)
    ensures UpsertAll(Mirrored(known), MirroredFiles(files)) == Mirrored(UpsertAll(known, files))
  {
    if files != [] {
      var n := |files| - 1;
      MirroredPrefix(files);
      MirroredUpserts(known, files[..n]);
      MirroredUpsert(UpsertAll(known, files[..n]), files[n]);
    }
  }

  lemma MirroredUpsert(known: Known, f: TransferFile)
    ensures Upsert(Mirrored(known), MirroredFile(f)) == Mirrored(Upsert(known, f))
  {
  }

  lemma {:induction false} MirroredSizes(files: seq<TransferFile>)
    ensures SumSizes(MirroredFiles(files)) == SumBytes(files)
  {
    if files != [] {
      MirroredPrefix(files);
      MirroredSizes(files[..|files| - 1]);
    }
  }

  lemma MirroredRetired(l: Ledger, s: TransferSnapshot)
    ensures Retired(MirroredLedger(l), MirroredSnapshot(s)) == MirroredLedger(Retired(l, s))
  {
    var keys := Keys(s.files);
    MirroredKeys(s.files);
    MirroredSum(Gone(l.known, keys));
    assert Gone(Mirrored(l.known), keys) == Mirrored(Gone(l.known, keys));
    assert Retained(Mirrored(l.known), keys) == Mirrored(Retained(l.known, keys));
  }

  /** Smoothing treats the two sides alike: with sizes and bytes exchanged, the transferred bytes
      shown are the queued ones. */
  lemma SidesAlike(l: Ledger, s: TransferSnapshot)
    ensures Smoothed(MirroredLedger(l), MirroredSnapshot(s)).0 == MirroredLedger(Smoothed(l, s).0)
    ensures Smoothed(MirroredLedger(l), MirroredSnapshot(s)).1.queuedBytes == Smoothed(l, s).1.transferredBytes
  {
    var b := Begun(l, s);
    assert Mirrored(map[]) == map[];
    assert Begun(MirroredLedger(l), MirroredSnapshot(s)) == MirroredLedger(b);
    MirroredRetired(b, s);
    MirroredUpserts(Retired(b, s).known, s.files);
  }

  /** A snapshot with details whose files have no fewer bytes than they were last known to have. */
  ghost predicate Advancing(l: Ledger, s: TransferSnapshot) {
    && Built(s) && s.files != [] && DistinctKeys(s.files)
    && forall f <- s.files :: FileKey(f) in Begun(l, s).known ==> Begun(l, s).known[FileKey(f)].1 <= f.bytes
  }

  lemma AdvancingMirrored(l: Ledger, s: TransferSnapshot)
    requires Advancing(l, s)
    ensures Sized(MirroredLedger(l), MirroredSnapshot(s))
  {
    var (m, files) := (MirroredSnapshot(s), MirroredFiles(s.files));
    MirroredSizes(s.files);
    assert Mirrored(map[]) == map[] && Begun(MirroredLedger(l), m) == MirroredLedger(Begun(l, s));
    forall f | f in files && FileKey(f) in Mirrored(Begun(l, s).known)
      ensures Mirrored(Begun(l, s).known)[FileKey(f)].0 <= f.size
    {
      var i :| 0 <= i < |files| && files[i] == f;
      assert s.files[i] in s.files && FileKey(s.files[i]) == FileKey(f);
    }
    assert forall i :: 0 <= i < |files| ==> FileKey(files[i]) == FileKey(s.files[i]);
  }

  /** Within a session the transferred bytes shown with file details never go back either, as long
      as no listed file has lost bytes: what left the queue stays counted. */
  lemma TransferredNeverGoesBack(ledgers: seq<Ledger>, snapshots: seq<TransferSnapshot>, i: nat, j: nat)
    requires Session(ledgers, snapshots) && i < j < |snapshots|
    requires Advancing(ledgers[i], snapshots[i]) && Advancing(ledgers[j], snapshots[j])
    ensures Smoothed(ledgers[i], snapshots[i]).1.transferredBytes
         <= Smoothed(ledgers[j], snapshots[j]).1.transferredBytes
  {
    var mirroredLedgers := seq(|ledgers|, k requires 0 <= k < |ledgers| => MirroredLedger(ledgers[k]));
    var mirrored := seq(|snapshots|, k requires 0 <= k < |snapshots| => MirroredSnapshot(snapshots[k]));
    forall k | 0 <= k < |snapshots|
      ensures HasWork(mirrored[k]) && mirroredLedgers[k + 1] == Smoothed(mirroredLedgers[k], mirrored[k]).0
    {
      SidesAlike(ledgers[k], snapshots[k]);
    }
    AdvancingMirrored(ledgers[i], snapshots[i]);
    AdvancingMirrored(ledgers[j], snapshots[j]);
    QueuedNeverGoesBack(mirroredLedgers, mirrored, i, j);
    SidesAlike(ledgers[i], snapshots[i]);
    SidesAlike(ledgers[j], snapshots[j]);
  }

  /** Unless a counter saturates, smoothing leaves what is still to be transferred as it is, and it
      never shows less of anything than the snapshot has. */
  lemma RemainderStays(l: Ledger, s: TransferSnapshot)
    ensures var shown := Smoothed(l, s).1;
      && shown.queuedBytes >= s.queuedBytes && shown.transferredBytes >= s.transferredBytes
      && (s.transferredBytes <= s.queuedBytes ==> shown.transferredBytes <= shown.queuedBytes)
      && (shown.queuedBytes < MAX && shown.transferredBytes < MAX ==>
            shown.queuedBytes - shown.transferredBytes == s.queuedBytes - s.transferredBytes)
      && shown.files == s.files && shown.queued == s.queued && shown.uploading == s.uploading
      && shown.errors == s.errors && shown.outOfSpace == s.outOfSpace && shown.synced == s.synced
  {
  }

  /** The percentage is the part of the queued bytes that is transferred. */
  predicate Proportional(s: TransferSnapshot) {
    s.queuedBytes > 0 ==> s.percentage == Clamp(s.transferredBytes as real * 100.0 / s.queuedBytes as real)
  }

  lemma OverallProportional(files: seq<TransferFile>, queuedBytes: u64, transferredBytes: u64, stats: DiskCacheStats)
    ensures Proportional(Overall(files, queuedBytes, transferredBytes, stats))
  {
  }

  /** So is the percentage shown, of the bytes shown, whenever the snapshot has queued bytes; with
      work but without queued bytes it is 0 as soon as anything was completed. */
  lemma ShownProportional(l: Ledger, s: TransferSnapshot)
    requires Proportional(s)
    ensures s.queuedBytes > 0 ==> Proportional(Smoothed(l, s).1) && Smoothed(l, s).1.queuedBytes > 0
    ensures HasWork(s) && s.queuedBytes == 0 && Smoothed(l, s).0.completed > 0 ==> Smoothed(l, s).1.percentage == 0.0
  {
  }
}
