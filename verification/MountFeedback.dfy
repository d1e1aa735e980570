/** What the user sees of a mount: transfer observations with debounced errors, and reads that
    count only while their mounted session lasts. */
module MountFeedback {
  import opened Common
  import opened Transfer
  import opened ProgressHistory

  // ----- observations of one mount -----

  datatype Observation = Update(snapshot: TransferSnapshot) | Failure(error: string)

  type u8 = n: int | 0 <= n <= 255

  function SaturatingIncrement(n: u8): u8 {
    if n == 255 then 255 else n + 1
  }

  function Count(n: nat): u8 {
    if n <= 255 then n else 255
  }

  /** How many of the last observations were synced updates. */
  function SyncedRun(seen: seq<Observation>): nat {
    if seen == [] || seen[|seen| - 1].Failure? || !seen[|seen| - 1].snapshot.synced then 0
    else 1 + SyncedRun(seen[..|seen| - 1])
  }

  /** How many of the last observations were failures. */
  function FailureRun(seen: seq<Observation>): nat {
    if seen == [] || seen[|seen| - 1].Update? then 0 else 1 + FailureRun(seen[..|seen| - 1])
  }

  predicate SyncedUpdate(o: Observation) {
    o.Update? && o.snapshot.synced
  }

  lemma {:induction false} SyncedRunMeaning(seen: seq<Observation>, n: nat)
    ensures SyncedRun(seen) >= n <==> |seen| >= n && forall i :: |seen| - n <= i < |seen| ==> SyncedUpdate(seen[i])
  {
    if n > 0 && seen != [] {
      SyncedRunMeaning(seen[..|seen| - 1], n - 1);
    }
  }

  lemma {:induction false} FailureRunMeaning(seen: seq<Observation>, n: nat)
    ensures FailureRun(seen) >= n <==> |seen| >= n && forall i :: |seen| - n <= i < |seen| ==> seen[i].Failure?
  {
    if n > 0 && seen != [] {
      FailureRunMeaning(seen[..|seen| - 1], n - 1);
    }
  }

  lemma FailureAppended(seen: seq<Observation>, e: string)
    ensures var more := seen + [Failure(e)];
      FailureRun(more) == FailureRun(seen) + 1 && SyncedRun(more) == 0 && more[|more| - 1] == Failure(e)
    ensures FailureRun(seen) > 0 ==>
              |seen| > 0 && seen[|seen| - 1].Failure? && (seen + [Failure(e)])[|seen| - 1] == seen[|seen| - 1]
  {
    assert (seen + [Failure(e)])[..|seen|] == seen;
  }

  class TransferState {
    var snapshot: Option<TransferSnapshot>
    const history: TransferProgressHistory
    var error: Option<string>
    var failures: u8
    var syncedPolls: u8
    ghost var seen: seq<Observation>

    ghost predicate Valid()
      reads this
    {
      && failures == Count(FailureRun(seen)) && syncedPolls == Count(SyncedRun(seen))
      && error == (if FailureRun(seen) > 0 then Some(seen[|seen| - 1].error) else None)
      && (FailureRun(seen) == 0 && seen != [] ==>
          snapshot.Some? && snapshot.value.synced == seen[|seen| - 1].snapshot.synced)
    }

    constructor ()
      ensures Valid() && seen == [] && fresh(history)
    {
      snapshot, error, failures, syncedPolls, seen := None, None, 0, 0, [];
      history := new TransferProgressHistory();
    }

    method Update(s: TransferSnapshot) returns (shown: TransferSnapshot, polls: u8)
      requires Valid()
      modifies this, history
      ensures Valid() && seen == old(seen) + [Observation.Update(s)]
      ensures snapshot == Some(shown) && (history.Value(), shown) == Smoothed(old(history.Value()), s)
      ensures polls == Count(SyncedRun(seen))
    {
      failures, error := 0, None;
      syncedPolls := if s.synced then SaturatingIncrement(syncedPolls) else 0;
      shown := history.Smooth(s);
      snapshot := Some(shown);
      polls := syncedPolls;
      seen := seen + [Observation.Update(s)];
      assert seen[..|seen| - 1] == old(seen);
    }

    /** Announces the third failure in a row, and from then on every one with another error. */
    method Fail(e: string) returns (announce: bool)
      requires Valid()
      modifies this
      ensures Valid() && seen == old(seen) + [Failure(e)] && snapshot == old(snapshot)
      ensures announce <==>
              FailureRun(seen) == 3 || (FailureRun(seen) > 3 && seen[|seen| - 2].error != e)
    {
      syncedPolls := 0;
      failures := SaturatingIncrement(failures);
      announce := failures == 3 || (failures > 3 && error != Some(e));
      error := Some(e);
      FailureAppended(seen, e);
      seen := seen + [Failure(e)];
    }

    function Current(): Option<TransferSnapshot>
      reads this
    {
      if error.None? then snapshot else None
    }

    function VisibleError(): Option<string>
      reads this
    {
      if failures >= 3 then error else None
    }

    function Synced(): bool
      reads this
    {
      syncedPolls >= 2 && Current().Some? && Current().value.synced
    }

    /** Synced exactly after two or more synced updates in a row; an error is visible exactly
        after three or more failures in a row, and it is the last one. */
    lemma Shows()
      requires Valid()
      ensures Synced() <==> |seen| >= 2 && forall i :: |seen| - 2 <= i < |seen| ==> SyncedUpdate(seen[i])
      ensures VisibleError().Some? <==> |seen| >= 3 && forall i :: |seen| - 3 <= i < |seen| ==> seen[i].Failure?
      ensures VisibleError().Some? ==> VisibleError().value == seen[|seen| - 1].error
      ensures Current().Some? ==> seen == [] || seen[|seen| - 1].Update?
    {
      SyncedRunMeaning(seen, 2);
      FailureRunMeaning(seen, 3);
    }
  }

  // ----- sessions -----

  const WRAP: nat := 0x1_0000_0000_0000_0000

  datatype FeedbackRequest = FeedbackRequest(id: string, generation: nat)

  datatype Event = Start(id: string) | Forget(id: string) | Retain(keep: set<string>)

  /** The generations of the mounts that are known, and the last one given out. */
  datatype Generations = Generations(mounts: map<string, nat>, next: nat)

  function Step(g: Generations, e: Event): Generations {
    match e
    case Start(id) =>
      if id in g.mounts then g
      else var next := (g.next + 1) % WRAP; Generations(g.mounts[id := next], next)
    case Forget(id) => g.(mounts := g.mounts - {id})
    case Retain(keep) => g.(mounts := map id | id in g.mounts && id in keep :: g.mounts[id])
  }

  function After(events: seq<Event>): Generations {
    if events == [] then Generations(map[], 0)
    else Step(After(events[..|events| - 1]), events[|events| - 1])
  }

  predicate Accepts(g: Generations, request: FeedbackRequest) {
    request.id in g.mounts && g.mounts[request.id] == request.generation
  }

  predicate Forgets(e: Event, id: string) {
    e == Forget(id) || (e.Retain? && id !in e.keep)
  }

  class MountFeedbacks {
    var mounts: map<string, nat>
    var nextGeneration: nat
    ghost var events: seq<Event>

    ghost predicate Valid()
      reads this
    {
      Generations(mounts, nextGeneration) == After(events)
    }

    constructor ()
      ensures Valid() && events == []
    {
      mounts, nextGeneration, events := map[], 0, [];
    }

    method StartRead(id: string) returns (request: FeedbackRequest)
      requires Valid()
      modifies this
      ensures Valid() && events == old(events) + [Start(id)]
      ensures request.id == id && Accepts(After(events), request)
    {
      if id !in mounts {
        nextGeneration := (nextGeneration + 1) % WRAP;
        mounts := mounts[id := nextGeneration];
      }
      request := FeedbackRequest(id, mounts[id]);
      events := events + [Start(id)];
      assert events[..|events| - 1] == old(events);
    }

    method Accept(request: FeedbackRequest) returns (accepted: bool)
      requires Valid()
      ensures accepted <==> Accepts(After(events), request)
    {
      accepted := request.id in mounts && mounts[request.id] == request.generation;
    }

    method ForgetMount(id: string)
      requires Valid()
      modifies this
      ensures Valid() && events == old(events) + [Forget(id)]
    {
      mounts := mounts - {id};
      events := events + [Forget(id)];
      assert events[..|events| - 1] == old(events);
    }

    method RetainMounts(keep: set<string>)
      requires Valid()
      modifies this
      ensures Valid() && events == old(events) + [Retain(keep)]
    {
      mounts := map id | id in mounts && id in keep :: mounts[id];
      events := events + [Retain(keep)];
      assert events[..|events| - 1] == old(events);
    }
  }

  /** Fewer sessions than generations: every one has its own, and none is newer than the last. */
  lemma {:induction false} GenerationsFresh(events: seq<Event>)
    requires |events| < WRAP
    ensures After(events).next <= |events|
    ensures forall id <- After(events).mounts :: 0 < After(events).mounts[id] <= After(events).next
  {
    if events != [] { GenerationsFresh(events[..|events| - 1]); }
  }

  /** A reply is accepted exactly when its mount was not forgotten after the read had started. */
  lemma {:induction false} AcceptedUnlessForgotten(events: seq<Event>, later: seq<Event>, request: FeedbackRequest)
    requires |events| + |later| < WRAP && Accepts(After(events), request)
    ensures Accepts(After(events + later), request) <==> forall e <- later :: !Forgets(e, request.id)
    ensures request.generation <= After(events + later).next
  {
    if later == [] {
      assert events + later == events;
      GenerationsFresh(events);
    } else {
      var n := |later| - 1;
      var all := events + later;
      assert all[..|all| - 1] == events + later[..n] && all[|all| - 1] == later[n];
      assert later == later[..n] + [later[n]];
      AcceptedUnlessForgotten(events, later[..n], request);
      GenerationsFresh(events + later[..n]);
      StepAccepts(After(events + later[..n]), later[n], request);
    }
  }

  /** One more event: what was forgotten gets a new generation, so it is not accepted again. */
  lemma StepAccepts(g: Generations, e: Event, request: FeedbackRequest)
    requires request.generation <= g.next < WRAP - 1 && forall id <- g.mounts :: g.mounts[id] <= g.next
    ensures request.generation <= Step(g, e).next
    ensures Accepts(Step(g, e), request) <==> Accepts(g, request) && !Forgets(e, request.id)
  {
  }
}
