/** Changing the credential storage: every server's candidate is persisted and reloaded before
    any old representation is retired, and every failure on the way is rolled back. */
module Configuration {
  import opened Common
  import opened CredentialStore
  import opened CredentialMigration

  // ----- what must not be lost -----

  /** The secret that hydration recovers: a reference is followed, and only without one is the
      obscured copy used. */
  function Secret(field: Field, entries: map<string, string>, plain: string -> string): Option<string> {
    if field.credential != "" then Lookup(entries, field.credential)
    else if field.obscured != "" then Some(plain(field.obscured)) else None
  }

  ghost predicate KeepsSecrets(s: Server, entries: map<string, string>, t: Server, now: map<string, string>,
                               plain: string -> string) {
    && t.id == s.id
    && forall k :: Secret(FieldOf(s, k), entries, plain).Some? ==>
                     Secret(FieldOf(t, k), now, plain) == Secret(FieldOf(s, k), entries, plain)
  }

  /** Every secret that could be recovered in `start` is recovered, for the same server, in `now`. */
  ghost predicate NoLoss(start: World, now: World, plain: string -> string) {
    && |now.file| == |start.file|
    && forall i :: 0 <= i < |start.file| ==>
                     KeepsSecrets(start.file[i], start.entries, now.file[i], now.entries, plain)
  }

  /** No secret of `start` was lost in any state from the end of `a` to the end of `b`. */
  ghost predicate Kept(a: seq<World>, b: seq<World>, start: World, plain: string -> string) {
    a <= b && forall i :: |a| <= i < |b| ==> NoLoss(start, b[i], plain)
  }

  // ----- where a migration may write -----

  function MayWrite(server: Server, target: Storage): set<string> {
    if target == System then Writes(server) else {}
  }

  function MayWriteAll(servers: seq<Server>, target: Storage): set<string> {
    set s, r | s in servers && r in MayWrite(s, target) :: r
  }

  function Stored(servers: seq<Server>): set<string> {
    (set s | s in servers :: s.password.credential) + (set s | s in servers :: s.keyPass.credential) - {""}
  }

  ghost predicate DistinctIds(servers: seq<Server>) {
    forall i, j :: 0 <= i < j < |servers| ==> servers[i].id != servers[j].id
  }

  /** No record's reference is one the migration would write. */
  ghost predicate Separate(servers: seq<Server>, target: Storage) {
    Stored(servers) !! MayWriteAll(servers, target)
  }

  /** The references of a record are the ones the program generates. */
  ghost predicate Canonical(server: Server) {
    forall k :: FieldOf(server, k).credential in {"", CredentialReference(server.id, k)}
  }

  lemma {:induction false} CanonicalSeparate(servers: seq<Server>, target: Storage)
    requires DistinctIds(servers) && forall s <- servers :: Canonical(s)
    ensures Separate(servers, target)
  {
    forall r | r in Stored(servers) && r in MayWriteAll(servers, target) ensures false {
      var s, k := WhereStored(servers, r);
      var t :| t in servers && r in MayWrite(t, target);
      var k' := if r in Written(t.password, t.id, Password) then Password else KeyPassphrase;
      assert r == CredentialReference(s.id, k) by { assert Canonical(s); }
      ReferencesInjective(s.id, k, t.id, k');
    }
  }

  lemma WhereStored(servers: seq<Server>, r: string) returns (s: Server, k: CredentialKind)
    requires r in Stored(servers)
    ensures s in servers && FieldOf(s, k).credential == r != ""
  {
    if s' :| s' in servers && s'.password.credential == r {
      s, k := s', Password;
    } else {
      s :| s in servers && s.keyPass.credential == r;
      k := KeyPassphrase;
    }
  }

  lemma NearKeeps(start: World, now: World, touched: set<string>, plain: string -> string)
    requires Near(start, now, touched) && Stored(start.file) !! touched
    ensures NoLoss(start, now, plain)
  {
    forall i | 0 <= i < |start.file|
      ensures KeepsSecrets(start.file[i], start.entries, now.file[i], now.entries, plain)
    {
      var s := start.file[i];
      assert s in start.file;
      forall k ensures Secret(FieldOf(s, k), now.entries, plain) == Secret(FieldOf(s, k), start.entries, plain) {
        assert FieldOf(s, k).credential == "" || FieldOf(s, k).credential in Stored(start.file);
      }
    }
  }

  lemma StepsKeep(a: seq<World>, b: seq<World>, touched: set<string>, start: World, mid: set<string>,
                  plain: string -> string)
    requires Steps(a, b, touched) && Near(start, a[|a| - 1], mid)
    requires Stored(start.file) !! touched + mid
    ensures Kept(a, b, start, plain)
  {
    forall i | |a| <= i < |b| ensures NoLoss(start, b[i], plain) {
      assert Near(a[|a| - 1], b[i], touched);
      NearKeeps(start, b[i], touched + mid, plain);
    }
  }

  // ----- preparing every server -----

  ghost predicate Prepared(server: Server, m: Migration, target: Storage, entries: map<string, string>,
                           plain: string -> string) {
    && m.kind == target && m.candidate.rest == server.rest
    && if target == System then ToSystem(server, m.candidate, entries, plain)
       else Hydrated(server, m.candidate, entries, plain)
  }

  /** Every change of every migration, in the order they were made. */
  function AllChanges(ms: seq<Migration>): seq<Change> {
    if ms == [] then [] else AllChanges(ms[..|ms| - 1]) + ms[|ms| - 1].changes
  }

  method PrepareServer(store: Vault, server: Server, target: Storage) returns (r: Result<Migration, CredentialError>)
    requires store.Valid()
    modifies store
    ensures store.Valid() && Steps(old(store.history), store.history, MayWrite(server, target))
    ensures r.Ok? ==> Prepared(server, r.value, target, store.world.entries, store.plain)
    ensures r.Ok? ==> Undo(store.world.entries, r.value.changes) == old(store.world.entries)
    ensures r.Ok? ==> References(r.value.changes) <= MayWrite(server, target)
    ensures r.Err? && !r.error.Rollback? ==> store.world == old(store.world)
    ensures Explained(r, Dangling(server, old(store.world.entries)), store.faults - old(store.faults))
    ensures store.faults >= old(store.faults)
    ensures r.Err? ==> UpTo(store.world.entries, old(store.world.entries), store.faults - old(store.faults))
  {
    UpToSame(store.world.entries);
    match target {
      case System => r := PrepareServerToSystem(store, server);
      case Obscure =>
        r := PrepareServerToObscure(store, server);
        UpToMore(store.world.entries, old(store.world.entries), 0, store.faults - old(store.faults));
    }
  }

  /** Takes the migrations back, the last one first, and reports what could not be. */
  method RollbackMigrations(store: Vault, ms: seq<Migration>) returns (errors: seq<CredentialError>)
    requires store.Valid()
    modifies store
    ensures store.Valid() && Steps(old(store.history), store.history, References(AllChanges(ms)))
    ensures errors == [] ==>
              store.world == old(store.world).(entries := Undo(old(store.world.entries), AllChanges(ms)))
    ensures store.world.file == old(store.world.file) && store.faults >= old(store.faults) + |errors|
    ensures UpTo(store.world.entries, Undo(old(store.world.entries), AllChanges(ms)), store.faults - old(store.faults))
    ensures forall e <- errors :: e.Rollback?
  {
    UpToSame(Undo(store.world.entries, AllChanges(ms)));
    errors := [];
    var i := |ms|;
    assert ms[..i] == ms;
    ghost var all := References(AllChanges(ms));
    while i > 0
      invariant 0 <= i <= |ms|
      invariant store.Valid() && Steps(old(store.history), store.history, all)
      invariant store.world.file == old(store.world.file)
      invariant References(AllChanges(ms[..i])) <= all
      invariant errors == [] ==>
                Undo(store.world.entries, AllChanges(ms[..i])) == Undo(old(store.world.entries), AllChanges(ms))
      invariant store.faults >= old(store.faults) + |errors| && forall e <- errors :: e.Rollback?
      invariant UpTo(Undo(store.world.entries, AllChanges(ms[..i])), Undo(old(store.world.entries), AllChanges(ms)),
                     store.faults - old(store.faults))
    {
      ghost var (between, before, faults) := (store.history, store.world.entries, store.faults);
      i := i - 1;
      AllChangesStep(ms, i, store.world.entries);
      var undone := RollbackChanges(store, ms[i].changes);
      StepsWithin(old(store.history), between, store.history, all, References(ms[i].changes));
      assert Near(old(store.world), store.world, all);
      MoreUndone(ms, i, before, store.world.entries, Undo(old(store.world.entries), AllChanges(ms)),
                 faults - old(store.faults), store.faults - faults);
      if undone.Err? { errors := errors + [undone.error]; }
    }
  }

  lemma MoreUndone(ms: seq<Migration>, i: nat, before: map<string, string>, now: map<string, string>,
                   wanted: map<string, string>, m: int, n: int)
    requires i < |ms| && UpTo(now, Undo(before, ms[i].changes), n)
    requires UpTo(Undo(before, AllChanges(ms[..i + 1])), wanted, m)
    ensures UpTo(Undo(now, AllChanges(ms[..i])), wanted, m + n)
  {
    AllChangesStep(ms, i, before);
    UndoUpTo(now, Undo(before, ms[i].changes), AllChanges(ms[..i]), n);
    UpToTrans(Undo(now, AllChanges(ms[..i])), Undo(Undo(before, ms[i].changes), AllChanges(ms[..i])), wanted, n, m);
  }

  lemma AllChangesStep(ms: seq<Migration>, i: nat, entries: map<string, string>)
    requires i < |ms|
    ensures References(AllChanges(ms[..i + 1])) == References(AllChanges(ms[..i])) + References(ms[i].changes)
    ensures Undo(entries, AllChanges(ms[..i + 1])) == Undo(Undo(entries, ms[i].changes), AllChanges(ms[..i]))
  {
    var more := ms[..i + 1];
    assert more[..|more| - 1] == ms[..i] && more[|more| - 1] == ms[i];
    UndoSplit(entries, AllChanges(ms[..i]), ms[i].changes);
    assert forall c :: c in AllChanges(more) <==> c in AllChanges(ms[..i]) || c in ms[i].changes;
  }

  /** What a record holds is not disturbed by writes to references it does not use. */
  lemma PreparedPersists(server: Server, m: Migration, target: Storage, w: World, now: World, touched: set<string>,
                         plain: string -> string)
    requires Prepared(server, m, target, w.entries, plain) && Near(w, now, touched)
    requires m.candidate.password.credential !in touched && m.candidate.keyPass.credential !in touched
    ensures Prepared(server, m, target, now.entries, plain)
  {
    forall k
      ensures Lookup(now.entries, FieldOf(m.candidate, k).credential)
           == Lookup(w.entries, FieldOf(m.candidate, k).credential)
    {
    }
  }

  /** A prepared record uses only references that were stored or are written for itself. */
  lemma PreparedUses(servers: seq<Server>, i: nat, j: nat, m: Migration, target: Storage, entries: map<string, string>,
                     plain: string -> string)
    requires i < j < |servers| && DistinctIds(servers) && Separate(servers, target)
    requires Prepared(servers[i], m, target, entries, plain)
    ensures m.candidate.password.credential !in MayWrite(servers[j], target)
    ensures m.candidate.keyPass.credential !in MayWrite(servers[j], target)
  {
    assert servers[i] in servers && servers[j] in servers;
    forall k ensures FieldOf(m.candidate, k).credential !in MayWrite(servers[j], target) {
      var c := FieldOf(m.candidate, k).credential;
      var own := FieldOf(servers[i], k).credential;
      if c in MayWrite(servers[j], target) {
        assert c in MayWriteAll(servers, target);
        assert own != "" ==> own in Stored(servers);
        var k' := if c in Written(servers[j].password, servers[j].id, Password) then Password else KeyPassphrase;
        assert c == CredentialReference(servers[j].id, k') != "";
        ReferencesInjective(servers[i].id, k, servers[j].id, k');
      }
    }
    assert FieldOf(m.candidate, Password) == m.candidate.password
        && FieldOf(m.candidate, KeyPassphrase) == m.candidate.keyPass;
  }

  ghost predicate AllPrepared(servers: seq<Server>, ms: seq<Migration>, target: Storage, entries: map<string, string>,
                              plain: string -> string) {
    |ms| == |servers| && forall i :: 0 <= i < |ms| ==> Prepared(servers[i], ms[i], target, entries, plain)
  }

  /** The candidates of the servers, over a store that undoing their changes takes back to `start`. */
  ghost predicate Staged(servers: seq<Server>, ms: seq<Migration>, target: Storage, start: map<string, string>,
                         entries: map<string, string>, plain: string -> string)
  {
    && AllPrepared(servers, ms, target, entries, plain)
    && Undo(entries, AllChanges(ms)) == start
    && References(AllChanges(ms)) <= MayWriteAll(servers, target)
  }

  lemma WritesWithin(servers: seq<Server>, i: nat, target: Storage)
    requires i < |servers|
    ensures MayWrite(servers[i], target) <= MayWriteAll(servers, target)
    ensures MayWriteAll(servers[..i], target) <= MayWriteAll(servers, target)
  {
    assert servers[i] in servers;
  }

  /** The pieces of an error message: what went wrong, then every rollback that failed. */
  type Message = seq<CredentialError>

  ghost predicate Clean(message: Message) {
    |message| == 1 && !message[0].Rollback?
  }

  /** The faults that a message reports at least: one for what went wrong, another one if that was
      a rollback, and one for every rollback that failed after it. */
  function Cost(message: Message): int {
    |message| + if message != [] && message[0].Rollback? then 1 else 0
  }

  const SERVER_ROLLBACK: CredentialError := Persistence("server rollback")

  /** Unless the old records could not be saved, they are back, and of the store no more entries are
      wrong than there were faults. */
  ghost predicate Restored(start: World, now: World, message: Message, faults: int) {
    SERVER_ROLLBACK in message || (now.file == start.file && UpTo(now.entries, start.entries, faults))
  }

  ghost predicate AnyDangling(servers: seq<Server>, entries: map<string, string>) {
    exists s <- servers :: Dangling(s, entries)
  }

  /** How a failure is accounted for: the message costs no more than the faults, a dangling reference
      counted as one, and what could be restored is restored. */
  ghost predicate Accounted(start: World, now: World, message: Message, dangling: bool, faults: int) {
    Cost(message) <= faults + (if dangling then 1 else 0) && Restored(start, now, message, faults)
  }

  /** In particular a single fault leaves everything as it was. */
  lemma SingleFault(start: World, now: World, message: Message, faults: int)
    requires Accounted(start, now, message, false, faults) && message != [] && faults <= 1
    requires Clean(message) ==> now == start
    ensures Clean(message) && now == start
  {
  }

  method PrepareNext(store: Vault, servers: seq<Server>, i: nat, target: Storage, ghost ms: seq<Migration>,
                     ghost began: seq<World>, ghost start: map<string, string>)
    returns (r: Result<Migration, CredentialError>)
    requires store.Valid() && i < |servers| && DistinctIds(servers) && Separate(servers, target)
    requires Steps(began, store.history, MayWriteAll(servers, target))
    requires Staged(servers[..i], ms, target, start, store.world.entries, store.plain)
    modifies store
    ensures store.Valid() && Steps(began, store.history, MayWriteAll(servers, target))
    ensures r.Ok? ==> Staged(servers[..i + 1], ms + [r.value], target, start, store.world.entries, store.plain)
    ensures r.Err? && !r.error.Rollback? ==> store.world == old(store.world)
    ensures References(AllChanges(ms)) <= MayWriteAll(servers, target)
    ensures store.faults >= old(store.faults)
    ensures Explained(r, AnyDangling(servers, began[|began| - 1].entries), store.faults - old(store.faults))
    ensures r.Err? ==> UpTo(Undo(store.world.entries, AllChanges(ms)), start, store.faults - old(store.faults))
  {
    ghost var between, before := store.history, store.world;
    StepsEnd(began, store.history, MayWriteAll(servers, target));
    DanglesFromStart(servers, i, target, began[|began| - 1], before);
    WritesWithin(servers, i, target);
    r := PrepareServer(store, servers[i], target);
    StepsEnd(between, store.history, MayWrite(servers[i], target));
    StepsWithin(began, between, store.history, MayWriteAll(servers, target), MayWrite(servers[i], target));
    if r.Ok? {
      AnotherPrepared(servers, i, ms, r.value, target, start, before, store.world, store.plain);
    } else {
      UndoUpTo(store.world.entries, before.entries, AllChanges(ms), store.faults - old(store.faults));
    }
  }

  /** No stored reference is written on the way, so what dangles did from the start. */
  lemma DanglesFromStart(servers: seq<Server>, i: nat, target: Storage, start: World, now: World)
    requires i < |servers| && Separate(servers, target) && Near(start, now, MayWriteAll(servers, target))
    ensures Dangling(servers[i], now.entries) ==> AnyDangling(servers, start.entries)
  {
    if Dangling(servers[i], now.entries) {
      var k :| FieldDangling(FieldOf(servers[i], k), now.entries);
      var r := FieldOf(servers[i], k).credential;
      assert servers[i] in servers && r in Stored(servers);
      assert Lookup(now.entries, r) == Lookup(start.entries, r);
      assert FieldDangling(FieldOf(servers[i], k), start.entries);
    }
  }

  method PrepareAll(store: Vault, servers: seq<Server>, target: Storage) returns (r: Result<seq<Migration>, Message>)
    requires store.Valid() && DistinctIds(servers)
    requires Separate(servers, target)
    modifies store
    ensures store.Valid() && Steps(old(store.history), store.history, MayWriteAll(servers, target))
    ensures r.Ok? ==> Staged(servers, r.value, target, old(store.world.entries), store.world.entries, store.plain)
    ensures r.Err? ==> r.error != [] && (Clean(r.error) ==> store.world == old(store.world))
    ensures store.faults >= old(store.faults)
    ensures r.Err? ==> Accounted(old(store.world), store.world, r.error,
                                 AnyDangling(servers, old(store.world.entries)), store.faults - old(store.faults))
  {
    var ms: seq<Migration> := [];
    ghost var all := MayWriteAll(servers, target);
    for i := 0 to |servers|
      invariant store.Valid() && Steps(old(store.history), store.history, all)
      invariant Staged(servers[..i], ms, target, old(store.world.entries), store.world.entries, store.plain)
      invariant store.faults >= old(store.faults)
    {
      var result := PrepareOrAbandon(store, servers, i, target, ms, old(store.history), old(store.faults));
      if result.Err? { return Err(result.error); }
      ms := ms + [result.value];
    }
    assert servers[..|servers|] == servers;
    r := Ok(ms);
  }

  method PrepareOrAbandon(store: Vault, servers: seq<Server>, i: nat, target: Storage, ms: seq<Migration>,
                          ghost began: seq<World>, ghost faults: nat)
    returns (r: Result<Migration, Message>)
    requires store.Valid() && i < |servers| && DistinctIds(servers) && Separate(servers, target)
    requires Steps(began, store.history, MayWriteAll(servers, target)) && store.faults >= faults
    requires Staged(servers[..i], ms, target, began[|began| - 1].entries, store.world.entries, store.plain)
    modifies store
    ensures store.Valid() && Steps(began, store.history, MayWriteAll(servers, target)) && store.faults >= faults
    ensures r.Ok? ==> Staged(servers[..i + 1], ms + [r.value], target, began[|began| - 1].entries,
                             store.world.entries, store.plain)
    ensures r.Err? ==> r.error != [] && (Clean(r.error) ==> store.world == began[|began| - 1])
    ensures r.Err? ==> Accounted(began[|began| - 1], store.world, r.error,
                                 AnyDangling(servers, began[|began| - 1].entries), store.faults - faults)
  {
    ghost var all := MayWriteAll(servers, target);
    ghost var start := began[|began| - 1];
    var result := PrepareNext(store, servers, i, target, ms, began, start.entries);
    if result.Ok? { return Ok(result.value); }
    var message := AbandonPrepared(store, ms, result.error, began, all, store.faults - old(store.faults), faults,
                                   AnyDangling(servers, start.entries));
    r := Err(message);
  }

  /** Takes back what was prepared so far; a clean message says that this was everything. */
  method AbandonPrepared(store: Vault, ms: seq<Migration>, error: CredentialError, ghost began: seq<World>,
                         ghost all: set<string>, ghost torn: int, ghost faults: nat, ghost dangling: bool)
    returns (message: Message)
    requires store.Valid() && Steps(began, store.history, all)
    requires UpTo(Undo(store.world.entries, AllChanges(ms)), began[|began| - 1].entries, torn)
    requires 0 <= torn <= store.faults - faults
    requires torn + (if dangling then 1 else 0) >= if error.Rollback? then 2 else 1
    requires References(AllChanges(ms)) <= all
    requires !error.Rollback? ==> Undo(store.world.entries, AllChanges(ms)) == began[|began| - 1].entries
    modifies store
    ensures store.Valid() && Steps(began, store.history, all)
    ensures message != [] && (Clean(message) ==> store.world == began[|began| - 1])
    ensures store.faults >= faults
    ensures Accounted(began[|began| - 1], store.world, message, dangling, store.faults - faults)
  {
    StepsEnd(began, store.history, all);
    ghost var (failed, before) := (store.history, store.world.entries);
    var errors := RollbackMigrations(store, ms);
    UpToTrans(store.world.entries, Undo(before, AllChanges(ms)), began[|began| - 1].entries,
              store.faults - old(store.faults), torn);
    UpToMore(store.world.entries, began[|began| - 1].entries, torn + store.faults - old(store.faults),
             store.faults - faults);
    StepsWithin(began, failed, store.history, all, References(AllChanges(ms)));
    message := [error] + errors;
  }

  lemma AnotherPrepared(servers: seq<Server>, i: nat, ms: seq<Migration>, m: Migration, target: Storage,
                        start: map<string, string>, before: World, now: World, plain: string -> string)
    requires i < |servers| && DistinctIds(servers) && Separate(servers, target)
    requires Staged(servers[..i], ms, target, start, before.entries, plain)
    requires Near(before, now, MayWrite(servers[i], target))
    requires Prepared(servers[i], m, target, now.entries, plain)
    requires Undo(now.entries, m.changes) == before.entries
    requires References(m.changes) <= MayWrite(servers[i], target)
    ensures Staged(servers[..i + 1], ms + [m], target, start, now.entries, plain)
  {
    StillPrepared(servers, i, ms, target, before, now, plain);
    PreparedSnoc(servers, i, ms, m, target, now.entries, plain);
    assert (ms + [m])[..i + 1] == ms + [m] && (ms + [m])[..i] == ms;
    AllChangesStep(ms + [m], i, now.entries);
    MayWriteMore(servers, i, target);
  }

  lemma PreparedSnoc(servers: seq<Server>, i: nat, ms: seq<Migration>, m: Migration, target: Storage,
                     entries: map<string, string>, plain: string -> string)
    requires i < |servers| && |ms| == i && Prepared(servers[i], m, target, entries, plain)
    requires forall j :: 0 <= j < i ==> Prepared(servers[j], ms[j], target, entries, plain)
    ensures AllPrepared(servers[..i + 1], ms + [m], target, entries, plain)
  {
    forall j | 0 <= j <= i ensures Prepared(servers[..i + 1][j], (ms + [m])[j], target, entries, plain) {
    }
  }

  lemma StillPrepared(servers: seq<Server>, i: nat, ms: seq<Migration>, target: Storage, before: World, now: World,
                      plain: string -> string)
    requires i < |servers| && DistinctIds(servers) && Separate(servers, target)
    requires AllPrepared(servers[..i], ms, target, before.entries, plain)
    requires Near(before, now, MayWrite(servers[i], target))
    ensures forall j :: 0 <= j < i ==> Prepared(servers[j], ms[j], target, now.entries, plain)
  {
    forall j | 0 <= j < i ensures Prepared(servers[j], ms[j], target, now.entries, plain) {
      assert servers[..i][j] == servers[j];
      PreparedUses(servers, j, i, ms[j], target, before.entries, plain);
      PreparedPersists(servers[j], ms[j], target, before, now, MayWrite(servers[i], target), plain);
    }
  }

  lemma MayWriteMore(servers: seq<Server>, i: nat, target: Storage)
    requires i < |servers|
    ensures MayWriteAll(servers[..i + 1], target) >= MayWriteAll(servers[..i], target) + MayWrite(servers[i], target)
  {
    assert servers[..i + 1] == servers[..i] + [servers[i]];
    assert servers[i] in servers[..i + 1];
  }

  // ----- persisting, with rollback -----

  function Candidates(ms: seq<Migration>): seq<Server> {
    seq(|ms|, i requires 0 <= i < |ms| => ms[i].candidate)
  }

  /** The migrations of `start` can be taken back from here: only what they may write differs,
      and no secret is lost yet. */
  ghost predicate Undoable(start: World, now: World, ms: seq<Migration>, target: Storage, plain: string -> string) {
    && Separate(start.file, target) && DistinctIds(start.file)
    && Staged(start.file, ms, target, start.entries, now.entries, plain)
    && Near(start, start.(entries := now.entries), MayWriteAll(start.file, target))
  }

  lemma CandidatesKeep(start: World, now: World, ms: seq<Migration>, target: Storage, plain: string -> string)
    requires Undoable(start, now, ms, target, plain)
    ensures NoLoss(start, now.(file := Candidates(ms)), plain)
  {
    forall i | 0 <= i < |start.file|
      ensures KeepsSecrets(start.file[i], start.entries, Candidates(ms)[i], now.entries, plain)
    {
      var s := start.file[i];
      assert s in start.file && Prepared(s, ms[i], target, now.entries, plain);
      forall k | Secret(FieldOf(s, k), start.entries, plain).Some?
        ensures Secret(FieldOf(ms[i].candidate, k), now.entries, plain) == Secret(FieldOf(s, k), start.entries, plain)
      {
        assert FieldOf(s, k).credential == "" || FieldOf(s, k).credential in Stored(start.file);
      }
    }
  }

  /** Restores the server file and, only if that worked, the store. */
  method RollbackAfterPersistence(store: Vault, ghost start: World, previous: seq<Server>, ms: seq<Migration>,
                                  ghost target: Storage, message: Message)
    returns (full: Message)
    requires store.Valid() && Undoable(start, store.world, ms, target, store.plain)
    requires NoLoss(start, store.world, store.plain) && previous == start.file
    modifies store
    ensures store.Valid() && Kept(old(store.history), store.history, start, store.plain)
    ensures message <= full && (full == message ==> store.world == start)
    ensures store.faults >= old(store.faults) + |full| - |message|
    ensures if SERVER_ROLLBACK in full[|message|..] then
              full == message + [SERVER_ROLLBACK] && store.world.entries == old(store.world.entries)
            else
              store.world.file == previous && UpTo(store.world.entries, start.entries, store.faults - old(store.faults))
  {
    full := message;
    var saved := store.SaveServers(previous);
    ghost var faults := store.faults;
    ghost var between, touched := store.history, MayWriteAll(start.file, target);
    NearKeeps(start, start.(entries := store.world.entries), touched, store.plain);
    if !saved { return full + [SERVER_ROLLBACK]; }
    var errors := RollbackMigrations(store, ms);
    StepsWiden(between, store.history, References(AllChanges(ms)), touched);
    StepsKeep(between, store.history, touched, start, touched, store.plain);
    full := message + errors;
    assert full[|message|..] == errors && (full == message ==> errors == []);
    UpToMore(store.world.entries, start.entries, store.faults - faults, store.faults - old(store.faults));
  }

  /** Saves and reloads; anything but what was saved is a failure, which is rolled back. */
  method PersistAndReload(store: Vault, ghost start: World, candidate: seq<Server>, original: seq<Server>,
                          ms: seq<Migration>, ghost target: Storage)
    returns (r: Result<seq<Server>, Message>)
    requires store.Valid() && Undoable(start, store.world, ms, target, store.plain)
    requires NoLoss(start, store.world, store.plain) && original == start.file
    requires NoLoss(start, store.world.(file := candidate), store.plain)
    modifies store
    ensures store.Valid() && Kept(old(store.history), store.history, start, store.plain)
    ensures r.Ok? ==> r.value == candidate && store.world == old(store.world).(file := candidate)
    ensures r.Err? ==> r.error != [] && (Clean(r.error) ==> store.world == start)
    ensures store.faults >= old(store.faults)
    ensures r.Err? ==> Accounted(start, store.world, r.error, false, store.faults - old(store.faults))
  {
    var saved := store.SaveServers(candidate);
    if saved {
      var persisted := store.LoadServers();
      if persisted == Some(candidate) { return Ok(candidate); }
    }
    r := FailAfterPersistence(store, start, original, ms, target, "servers", old(store.faults));
  }

  /** The failure of one step after records were saved: everything is taken back. */
  method FailAfterPersistence(store: Vault, ghost start: World, original: seq<Server>, ms: seq<Migration>,
                              ghost target: Storage, step: string, ghost faults: nat)
    returns (r: Result<seq<Server>, Message>)
    requires store.Valid() && Undoable(start, store.world, ms, target, store.plain) && step != "server rollback"
    requires NoLoss(start, store.world, store.plain) && original == start.file && store.faults > faults
    modifies store
    ensures store.Valid() && Kept(old(store.history), store.history, start, store.plain)
    ensures r.Err? && r.error != [] && (Clean(r.error) ==> store.world == start)
    ensures store.faults > faults && Accounted(start, store.world, r.error, false, store.faults - faults)
  {
    ghost var failed := store.faults;
    var message := RollbackAfterPersistence(store, start, original, ms, target, [Persistence(step)]);
    assert message == [Persistence(step)] + message[1..];
    if SERVER_ROLLBACK !in message[1..] {
      UpToMore(store.world.entries, start.entries, store.faults - failed, store.faults - faults);
    }
    r := Err(message);
  }

  // ----- the whole migration -----

  function Find(servers: seq<Server>, id: string): Option<Server> {
    if servers == [] then None else if servers[0].id == id then Some(servers[0]) else Find(servers[1..], id)
  }

  lemma {:induction false} FindOwn(servers: seq<Server>, i: nat)
    requires i < |servers| && DistinctIds(servers)
    ensures Find(servers, servers[i].id) == Some(servers[i])
  {
    if i > 0 {
      assert servers[0].id != servers[i].id;
      FindOwn(servers[1..], i - 1);
    }
  }

  function Final(m: Migration, target: Storage): Server {
    if target == System then m.candidate
    else m.candidate.(password := Retire(m.candidate.password, m.candidate.password),
                      keyPass := Retire(m.candidate.keyPass, m.candidate.keyPass))
  }

  function Finals(ms: seq<Migration>, target: Storage): seq<Server> {
    seq(|ms|, i requires 0 <= i < |ms| => Final(ms[i], target))
  }

  lemma FinalsKeep(start: World, now: World, ms: seq<Migration>, target: Storage, plain: string -> string)
    requires Undoable(start, now, ms, target, plain)
    ensures NoLoss(start, now.(file := Finals(ms, target)), plain)
  {
    CandidatesKeep(start, now, ms, target, plain);
    forall i | 0 <= i < |start.file|
      ensures KeepsSecrets(start.file[i], start.entries, Finals(ms, target)[i], now.entries, plain)
    {
      var s, t := start.file[i], Finals(ms, target)[i];
      assert Prepared(s, ms[i], target, now.entries, plain);
      assert KeepsSecrets(s, start.entries, Candidates(ms)[i], now.entries, plain);
      forall k | Secret(FieldOf(s, k), start.entries, plain).Some?
        ensures Secret(FieldOf(t, k), now.entries, plain) == Secret(FieldOf(s, k), start.entries, plain)
      {
        assert Secret(FieldOf(ms[i].candidate, k), now.entries, plain) == Secret(FieldOf(s, k), start.entries, plain);
      }
    }
  }

  datatype Outcome = Outcome(migrations: seq<Migration>, retired: seq<string>)

  /** One migration's record finalised from the reloaded file, or nothing when it does not verify. */
  function FinalizeFrom(m: Migration, persisted: seq<Server>, target: Storage)
    : Result<(Server, seq<string>), CredentialError>
  {
    match Find(persisted, m.candidate.id)
    case None => Err(Persistence("migration"))
    case Some(server) => Finalize(m, server, target)
  }

  /** What was reloaded as saved verifies: the two checks behind it cannot fail. */
  lemma ReloadedFinalizes(ms: seq<Migration>, i: nat, target: Storage)
    requires i < |ms| && ms[i].kind == target && DistinctIds(Candidates(ms))
    ensures FinalizeFrom(ms[i], Candidates(ms), target)
         == Ok((Final(ms[i], target), if target == System then [] else ReferencesOf(ms[i].candidate)))
  {
    FindOwn(Candidates(ms), i);
  }

  function RetiredBy(ms: seq<Migration>, target: Storage): seq<string> {
    if ms == [] || target == System then []
    else RetiredBy(ms[..|ms| - 1], target) + ReferencesOf(ms[|ms| - 1].candidate)
  }

  lemma CandidatesDistinct(start: World, now: World, ms: seq<Migration>, target: Storage, plain: string -> string)
    requires Undoable(start, now, ms, target, plain)
    ensures DistinctIds(Candidates(ms)) && forall m <- ms :: m.kind == target
  {
    forall i | 0 <= i < |ms| ensures ms[i].candidate.id == start.file[i].id && ms[i].kind == target {
      assert Prepared(start.file[i], ms[i], target, now.entries, plain);
    }
  }

  lemma FinalsGrow(ms: seq<Migration>, i: nat, target: Storage)
    requires i < |ms|
    ensures Finals(ms[..i + 1], target) == Finals(ms[..i], target) + [Final(ms[i], target)]
    ensures RetiredBy(ms[..i + 1], target)
         == RetiredBy(ms[..i], target) + if target == System then [] else ReferencesOf(ms[i].candidate)
  {
    assert ms[..i + 1][..i] == ms[..i] && ms[..i + 1][i] == ms[i];
  }

  /** The final records, and what to retire. Nothing can fail here: the list is the reloaded one. */
  method FinalizeAll(persisted: seq<Server>, ms: seq<Migration>, target: Storage)
    returns (finalized: seq<Server>, retired: seq<string>)
    requires persisted == Candidates(ms) && DistinctIds(persisted) && forall m <- ms :: m.kind == target
    ensures finalized == Finals(ms, target) && retired == RetiredBy(ms, target)
  {
    finalized, retired := [], [];
    for i := 0 to |ms|
      invariant finalized == Finals(ms[..i], target) && retired == RetiredBy(ms[..i], target)
    {
      var result := FinalizeFrom(ms[i], persisted, target);
      ReloadedFinalizes(ms, i, target);
      if result.Err? { assert false; }
      FinalsGrow(ms, i, target);
      finalized := finalized + [result.value.0];
      retired := retired + result.value.1;
    }
    assert ms[..|ms|] == ms;
  }

  /** What a record became: on the way to the system store its references hold the revealed
      plaintext; on the way back it has none, and its obscured copies reveal what they held. */
  ghost predicate Migrated(server: Server, final: Server, target: Storage, start: map<string, string>,
                           entries: map<string, string>, plain: string -> string)
  {
    if target == System then ToSystem(server, final, entries, plain)
    else
      && final.id == server.id
      && forall k :: FieldOf(final, k).credential == ""
                     && if FieldOf(server, k).credential == ""
                        then FieldOf(final, k).obscured == FieldOf(server, k).obscured
                        else FieldOf(final, k).obscured != ""
                             && Lookup(start, FieldOf(server, k).credential) == Some(plain(FieldOf(final, k).obscured))
  }

  ghost predicate AllMigrated(servers: seq<Server>, finals: seq<Server>, target: Storage, start: map<string, string>,
                              entries: map<string, string>, plain: string -> string)
  {
    && |finals| == |servers|
    && forall i :: 0 <= i < |servers| ==> Migrated(servers[i], finals[i], target, start, entries, plain)
  }

  lemma FinalsMigrated(start: World, now: World, ms: seq<Migration>, target: Storage, plain: string -> string)
    requires Undoable(start, now, ms, target, plain)
    ensures AllMigrated(start.file, Finals(ms, target), target, start.entries, now.entries, plain)
    ensures forall i :: 0 <= i < |start.file| ==> Finals(ms, target)[i].rest == start.file[i].rest
  {
    forall i | 0 <= i < |start.file|
      ensures Migrated(start.file[i], Finals(ms, target)[i], target, start.entries, now.entries, plain)
      ensures Finals(ms, target)[i].rest == start.file[i].rest
    {
      assert Prepared(start.file[i], ms[i], target, now.entries, plain);
      if target == Storage.Obscure {
        OneMigrated(start, now, start.file[i], ms[i], plain);
      }
    }
  }

  lemma OneMigrated(start: World, now: World, server: Server, m: Migration, plain: string -> string)
    requires Near(start, start.(entries := now.entries), {})
    requires Hydrated(server, m.candidate, now.entries, plain)
    ensures Migrated(server, Final(m, Storage.Obscure), Storage.Obscure, start.entries, now.entries, plain)
  {
    forall k
      ensures FieldOf(Final(m, Storage.Obscure), k) == FieldOf(m.candidate, k).(credential := "")
      ensures FieldHydrated(FieldOf(server, k), FieldOf(m.candidate, k), now.entries, plain)
      ensures Lookup(start.entries, FieldOf(server, k).credential) == Lookup(now.entries, FieldOf(server, k).credential)
    {
    }
  }

  /** Moves every secret of the saved servers to the other representation. */
  method MigrateServersForStorage(store: Vault, servers: seq<Server>, target: Storage)
    returns (r: Result<Outcome, Message>)
    requires store.Valid() && store.world.file == servers
    requires DistinctIds(servers) && Separate(servers, target)
    modifies store
    ensures store.Valid() && Kept(old(store.history), store.history, old(store.world), store.plain)
    ensures r.Ok? ==> Undoable(old(store.world), store.world, r.value.migrations, target, store.plain)
    ensures r.Ok? ==> store.world.file == Finals(r.value.migrations, target)
    ensures r.Ok? ==> r.value.retired == RetiredBy(r.value.migrations, target)
    ensures r.Err? ==> r.error != [] && (Clean(r.error) ==> store.world == old(store.world))
    ensures store.faults >= old(store.faults)
    ensures r.Err? ==> Accounted(old(store.world), store.world, r.error,
                                 AnyDangling(servers, old(store.world.entries)), store.faults - old(store.faults))
  {
    ghost var start, h0 := store.world, store.history;
    var prepared := PrepareAll(store, servers, target);
    NearKeeps(start, start, {}, store.plain);
    StepsKeep(h0, store.history, MayWriteAll(servers, target), start, {}, store.plain);
    StepsEnd(h0, store.history, MayWriteAll(servers, target));
    if prepared.Err? { return Err(prepared.error); }
    var ms := prepared.value;
    ghost var (h1, faults) := (store.history, store.faults);
    CandidatesKeep(start, store.world, ms, target, store.plain);
    NearKeeps(start, store.world, MayWriteAll(servers, target), store.plain);
    var persisted := PersistAndReload(store, start, Candidates(ms), servers, ms, target);
    KeptCompose(h0, h1, store.history, start, store.plain);
    if persisted.Err? {
      MoreFaults(start, store.world, persisted.error, store.faults - faults, AnyDangling(servers, start.entries),
                 store.faults - old(store.faults));
      return Err(persisted.error);
    }
    faults := store.faults;
    r := Retiring(store, start, h0, servers, ms, target, persisted.value);
    if r.Err? {
      MoreFaults(start, store.world, r.error, store.faults - faults, AnyDangling(servers, start.entries),
                 store.faults - old(store.faults));
    }
  }

  lemma MoreFaults(start: World, now: World, message: Message, m: int, dangling: bool, n: int)
    requires Accounted(start, now, message, false, m) && m <= n
    ensures Accounted(start, now, message, dangling, n)
  {
    if SERVER_ROLLBACK !in message { UpToMore(now.entries, start.entries, m, n); }
  }

  lemma KeptCompose(a: seq<World>, b: seq<World>, c: seq<World>, start: World, plain: string -> string)
    requires Kept(a, b, start, plain) && Kept(b, c, start, plain)
    ensures Kept(a, c, start, plain)
  {
    assert forall i :: |a| <= i < |b| ==> c[i] == b[i];
  }

  method Retiring(store: Vault, ghost start: World, ghost began: seq<World>, servers: seq<Server>, ms: seq<Migration>,
                  target: Storage, persisted: seq<Server>)
    returns (r: Result<Outcome, Message>)
    requires store.Valid() && Undoable(start, store.world, ms, target, store.plain)
             && Kept(began, store.history, start, store.plain)
    requires servers == start.file && persisted == Candidates(ms) == store.world.file
    modifies store
    ensures store.Valid() && Kept(began, store.history, start, store.plain)
    ensures r.Ok? ==> Undoable(start, store.world, r.value.migrations, target, store.plain)
    ensures r.Ok? ==> store.world.file == Finals(r.value.migrations, target)
    ensures r.Ok? ==> r.value.retired == RetiredBy(r.value.migrations, target)
    ensures r.Err? ==> r.error != [] && (Clean(r.error) ==> store.world == start)
    ensures store.faults >= old(store.faults)
    ensures r.Err? ==> Accounted(start, store.world, r.error, false, store.faults - old(store.faults))
  {
    CandidatesKeep(start, store.world, ms, target, store.plain);
    CandidatesDistinct(start, store.world, ms, target, store.plain);
    var finalized, retired := FinalizeAll(persisted, ms, target);
    FinalsKeep(start, store.world, ms, target, store.plain);
    ghost var h1 := store.history;
    var saved := PersistAndReload(store, start, finalized, servers, ms, target);
    KeptCompose(began, h1, store.history, start, store.plain);
    if saved.Err? { return Err(saved.error); }
    r := Ok(Outcome(ms, retired));
  }

  // ----- saving settings that change the storage -----

  /** One completed change of storage. */
  ghost predicate Changed(w: World, v: World, target: Storage, plain: string -> string) {
    && AllMigrated(w.file, v.file, target, w.entries, v.entries, plain)
    && Near(w, w.(entries := v.entries), if target == System then MayWriteAll(w.file, target) else Stored(w.file))
  }

  lemma NoLossCompose(a: World, b: World, c: World, plain: string -> string)
    requires NoLoss(a, b, plain) && NoLoss(b, c, plain)
    ensures NoLoss(a, c, plain)
  {
    forall i | 0 <= i < |a.file| ensures KeepsSecrets(a.file[i], a.entries, c.file[i], c.entries, plain) {
      assert KeepsSecrets(a.file[i], a.entries, b.file[i], b.entries, plain);
      assert KeepsSecrets(b.file[i], b.entries, c.file[i], c.entries, plain);
    }
  }

  lemma SameSecretsKeep(w: World, servers: seq<Server>, plain: string -> string)
    requires SameSecrets(w.file, servers)
    ensures NoLoss(w, w.(file := servers), plain) && Stored(servers) == Stored(w.file)
  {
    forall i | 0 <= i < |servers|
      ensures servers[i].id == w.file[i].id && forall k :: FieldOf(servers[i], k) == FieldOf(w.file[i], k)
    {
    }
    forall r ensures r in Stored(servers) <==> r in Stored(w.file) {
      if r in Stored(servers) {
        var s, k := WhereStored(servers, r);
        var i :| 0 <= i < |servers| && servers[i] == s;
        assert w.file[i] in w.file;
        assert FieldOf(w.file[i], k).credential == r;
      }
      if r in Stored(w.file) {
        var s, k := WhereStored(w.file, r);
        var i :| 0 <= i < |servers| && w.file[i] == s;
        assert servers[i] in servers;
        assert FieldOf(servers[i], k).credential == r;
      }
    }
  }

  lemma {:induction false} RetiredAll(servers: seq<Server>, ms: seq<Migration>, entries: map<string, string>,
                                      plain: string -> string)
    requires AllPrepared(servers, ms, Storage.Obscure, entries, plain)
    ensures NonEmpty(RetiredBy(ms, Storage.Obscure)) == Stored(servers)
  {
    if ms == [] {
      assert servers == [];
    } else {
      var n := |ms| - 1;
      RetiredAll(servers[..n], ms[..n], entries, plain);
      SameReferences(servers[n], ms[n].candidate, entries, plain);
      assert servers == servers[..n] + [servers[n]];
      StoredAppend(servers[..n], servers[n]);
      NonEmptyAppend(RetiredBy(ms[..n], Storage.Obscure), ReferencesOf(ms[n].candidate));
    }
  }

  lemma NonEmptyAppend(a: seq<string>, b: seq<string>)
    ensures NonEmpty(a + b) == NonEmpty(a) + NonEmpty(b)
  {
  }

  lemma SameReferences(server: Server, candidate: Server, entries: map<string, string>, plain: string -> string)
    requires Hydrated(server, candidate, entries, plain)
    ensures NonEmpty(ReferencesOf(candidate)) == {server.password.credential, server.keyPass.credential} - {""}
  {
    assert FieldOf(candidate, Password).credential == FieldOf(server, Password).credential;
    assert FieldOf(candidate, KeyPassphrase).credential == FieldOf(server, KeyPassphrase).credential;
  }

  lemma StoredAppend(servers: seq<Server>, s: Server)
    ensures Stored(servers + [s]) == Stored(servers) + ({s.password.credential, s.keyPass.credential} - {""})
  {
    assert s in servers + [s];
  }

  /** The credential part of saving settings whose storage differs from the previous one. */
  method SaveSettings(store: Vault, servers: seq<Server>, target: Storage)
    returns (r: Result<seq<Server>, Message>, warned: bool)
    requires store.Valid() && store.world.file == servers
    requires DistinctIds(servers) && Separate(servers, target)
    modifies store
    ensures store.Valid() && Kept(old(store.history), store.history, old(store.world), store.plain)
    ensures r.Ok? ==> r.value == store.world.file && Changed(old(store.world), store.world, target, store.plain)
    ensures r.Ok? && target == Storage.Obscure && !warned ==>
              store.world.entries == old(store.world.entries) - Stored(servers)
    ensures r.Err? ==> r.error != [] && (Clean(r.error) ==> store.world == old(store.world))
    ensures store.faults >= old(store.faults) + (if warned then 1 else 0)
    ensures r.Err? ==> Accounted(old(store.world), store.world, r.error,
                                 AnyDangling(servers, old(store.world.entries)), store.faults - old(store.faults))
  {
    warned := false;
    ghost var start, h0 := store.world, store.history;
    var migration := MigrateServersForStorage(store, servers, target);
    if migration.Err? { return Err(migration.error), false; }
    ghost var faults := store.faults;
    r, warned := AfterMigration(store, start, h0, servers, target, migration.value);
    if r.Err? {
      MoreFaults(start, store.world, r.error, store.faults - faults, AnyDangling(servers, start.entries),
                 store.faults - old(store.faults));
    }
  }

  method AfterMigration(store: Vault, ghost start: World, ghost began: seq<World>, servers: seq<Server>,
                        target: Storage, outcome: Outcome)
    returns (r: Result<seq<Server>, Message>, warned: bool)
    requires store.Valid() && servers == start.file && Kept(began, store.history, start, store.plain)
    requires Undoable(start, store.world, outcome.migrations, target, store.plain)
    requires store.world.file == Finals(outcome.migrations, target)
    requires outcome.retired == RetiredBy(outcome.migrations, target)
    modifies store
    ensures store.Valid() && Kept(began, store.history, start, store.plain)
    ensures r.Ok? ==> r.value == store.world.file && Changed(start, store.world, target, store.plain)
    ensures r.Ok? && target == Storage.Obscure && !warned ==> store.world.entries == start.entries - Stored(servers)
    ensures r.Err? ==> r.error != [] && (Clean(r.error) ==> store.world == start)
    ensures store.faults >= old(store.faults) + (if warned then 1 else 0)
    ensures r.Err? ==> Accounted(start, store.world, r.error, false, store.faults - old(store.faults))
  {
    warned := false;
    ghost var h1, finals := store.history, store.world;
    FinalsKeep(start, store.world, outcome.migrations, target, store.plain);
    var updated := store.UpdatePreferences();
    SameSecretsKeep(finals, store.world.file, store.plain);
    NoLossCompose(start, finals, store.world, store.plain);
    KeptCompose(began, h1, store.history, start, store.plain);
    var done := false;
    if updated.Some? { done := RemainingSteps(store, updated.value, target); }
    if !done {
      ghost var h2 := store.history;
      r := FailAfterPersistence(store, start, servers, outcome.migrations, target, "settings", old(store.faults));
      KeptCompose(began, h2, store.history, start, store.plain);
      return;
    }
    FinalsMigrated(start, finals, outcome.migrations, target, store.plain);
    ChangedBy(start, finals, store.world, target, store.plain);
    if target == Storage.Obscure {
      warned := RetireReferences(store, start, began, outcome);
    }
    r := Ok(updated.value);
  }

  /** Clearing the secrets of the rclone remotes, and writing the settings. */
  method RemainingSteps(store: Vault, servers: seq<Server>, target: Storage) returns (ok: bool)
    requires store.Valid()
    modifies store`faults
    ensures store.faults >= old(store.faults) && (!ok ==> store.faults > old(store.faults))
  {
    if target == System {
      for i := 0 to |servers|
        invariant store.faults >= old(store.faults)
      {
        ok := store.Elsewhere();
        if !ok { return; }
      }
    }
    ok := store.Elsewhere();
  }

  lemma ChangedBy(start: World, finals: World, now: World, target: Storage, plain: string -> string)
    requires AllMigrated(start.file, finals.file, target, start.entries, finals.entries, plain)
    requires SameSecrets(finals.file, now.file) && now.entries == finals.entries
    requires Near(start, start.(entries := finals.entries), MayWriteAll(start.file, target))
    ensures Changed(start, now, target, plain)
    ensures target == Storage.Obscure ==> Stored(now.file) == {} && now.entries == start.entries
  {
    forall i | 0 <= i < |start.file|
      ensures Migrated(start.file[i], now.file[i], target, start.entries, now.entries, plain)
      ensures target == Storage.Obscure ==>
                now.file[i].password.credential == "" && now.file[i].keyPass.credential == ""
    {
      var (f, n) := (finals.file[i], now.file[i]);
      assert Migrated(start.file[i], f, target, start.entries, finals.entries, plain);
      assert forall k :: FieldOf(n, k) == FieldOf(f, k);
      assert n.password == FieldOf(n, Password) && n.keyPass == FieldOf(n, KeyPassphrase);
    }
    if target == Storage.Obscure {
      SameLookups(now.entries, start.entries);
      forall r ensures r !in Stored(now.file) {
        if r in Stored(now.file) {
          var s, k := WhereStored(now.file, r);
        }
      }
    }
  }

  method RetireReferences(store: Vault, ghost start: World, ghost began: seq<World>, outcome: Outcome)
    returns (warned: bool)
    requires store.Valid() && Kept(began, store.history, start, store.plain) && NoLoss(start, store.world, store.plain)
    requires Changed(start, store.world, Storage.Obscure, store.plain)
    requires Stored(store.world.file) == {} && store.world.entries == start.entries
    requires AllPrepared(start.file, outcome.migrations, Storage.Obscure, start.entries, store.plain)
    requires outcome.retired == RetiredBy(outcome.migrations, Storage.Obscure)
    modifies store
    ensures store.Valid() && Kept(began, store.history, start, store.plain)
    ensures store.world.file == old(store.world.file) && Changed(start, store.world, Storage.Obscure, store.plain)
    ensures !warned ==> store.world.entries == start.entries - Stored(start.file)
    ensures store.faults >= old(store.faults) + (if warned then 1 else 0)
  {
    ghost var h, w := store.history, store.world;
    RetiredAll(start.file, outcome.migrations, start.entries, store.plain);
    var deleted := DeleteCredentialReferences(store, outcome.retired);
    RetiredKeeps(start, w, began, h, store.history, store.world, store.plain);
    warned := deleted.Err?;
  }

  lemma RetiredKeeps(start: World, w: World, began: seq<World>, h: seq<World>, history: seq<World>, v: World,
                     plain: string -> string)
    requires Kept(began, h, start, plain) && NoLoss(start, w, plain) && Changed(start, w, Storage.Obscure, plain)
    requires Stored(w.file) == {} && w.entries == start.entries
    requires Steps(h, history, Stored(start.file)) && h[|h| - 1] == w && history[|history| - 1] == v
    ensures Kept(began, history, start, plain) && v.file == w.file && Changed(start, v, Storage.Obscure, plain)
  {
    StepsKeep(h, history, Stored(start.file), w, {}, plain);
    StepsEnd(h, history, Stored(start.file));
    RetiredChanged(start, w, v, plain);
    KeptAfter(began, h, history, start, w, plain);
  }

  /** Retiring references changes no record, and no entry that is not retired. */
  lemma RetiredChanged(start: World, w: World, v: World, plain: string -> string)
    requires Changed(start, w, Storage.Obscure, plain) && w.entries == start.entries && Near(w, v, Stored(start.file))
    ensures Changed(start, v, Storage.Obscure, plain)
  {
    forall i | 0 <= i < |start.file|
      ensures Migrated(start.file[i], v.file[i], Storage.Obscure, start.entries, v.entries, plain)
    {
      assert Migrated(start.file[i], w.file[i], Storage.Obscure, start.entries, w.entries, plain);
    }
  }

  lemma KeptAfter(a: seq<World>, b: seq<World>, c: seq<World>, start: World, mid: World, plain: string -> string)
    requires Kept(a, b, start, plain) && Kept(b, c, mid, plain) && NoLoss(start, mid, plain)
    ensures Kept(a, c, start, plain)
  {
    forall i | |b| <= i < |c| ensures NoLoss(start, c[i], plain) {
      NoLossCompose(start, mid, c[i], plain);
    }
    KeptCompose(a, b, c, start, plain);
  }

  // ----- composing changes -----

  /** A completed change leaves every plaintext what it was, present or not. */
  lemma ChangedKeeps(w: World, v: World, target: Storage, i: nat, k: CredentialKind, plain: string -> string)
    requires Changed(w, v, target, plain) && Separate(w.file, target) && i < |w.file|
    ensures Secret(FieldOf(v.file[i], k), v.entries, plain) == Secret(FieldOf(w.file[i], k), w.entries, plain)
    ensures v.file[i].id == w.file[i].id
    ensures target == Storage.Obscure ==> FieldOf(v.file[i], k).credential == ""
    ensures FieldOf(v.file[i], k).credential
         in {"", FieldOf(w.file[i], k).credential, CredentialReference(w.file[i].id, k)}
  {
    var s := w.file[i];
    assert s in w.file && Migrated(s, v.file[i], target, w.entries, v.entries, plain);
    assert FieldOf(s, k).credential == "" || FieldOf(s, k).credential in Stored(w.file);
  }

  ghost predicate ChangedRun(run: seq<World>, targets: seq<Storage>, plain: string -> string) {
    && |run| == |targets| + 1
    && forall i :: 0 <= i < |targets| ==> Changed(run[i], run[i + 1], targets[i], plain)
  }

  /** However often the storage is switched, every server's plaintexts stay what they were; in
      particular there and back is the identity on them. */
  lemma {:induction false} SwitchingKeepsPlaintexts(run: seq<World>, targets: seq<Storage>, plain: string -> string)
    requires ChangedRun(run, targets, plain)
    requires DistinctIds(run[0].file) && forall s <- run[0].file :: Canonical(s)
    ensures |run[|targets|].file| == |run[0].file|
    ensures DistinctIds(run[|targets|].file) && forall s <- run[|targets|].file :: Canonical(s)
    ensures forall i, k :: 0 <= i < |run[0].file| ==>
              Secret(FieldOf(run[|targets|].file[i], k), run[|targets|].entries, plain)
                  == Secret(FieldOf(run[0].file[i], k), run[0].entries, plain)
  {
    if targets != [] {
      var n := |targets| - 1;
      SwitchingKeepsPlaintexts(run[..|run| - 1], targets[..n], plain);
      var (w, v) := (run[n], run[n + 1]);
      assert Changed(w, v, targets[n], plain);
      CanonicalSeparate(w.file, targets[n]);
      forall i, k | 0 <= i < |w.file|
        ensures v.file[i].id == w.file[i].id
        ensures Secret(FieldOf(v.file[i], k), v.entries, plain) == Secret(FieldOf(w.file[i], k), w.entries, plain)
        ensures FieldOf(v.file[i], k).credential in {"", CredentialReference(v.file[i].id, k)}
      {
        ChangedKeeps(w, v, targets[n], i, k, plain);
        assert Canonical(w.file[i]);
      }
    }
  }

  /** Without separate references the first write already decides: the secret behind a reference
      that another record's migration writes survives only if both secrets are the same. */
  lemma SharedReferenceLoses(start: World, i: nat, k: CredentialKind, j: nat, k': CredentialKind,
                             plain: string -> string)
    requires i < |start.file| && j < |start.file|
    requires var r := FieldOf(start.file[i], k).credential;
      r in start.entries && r in Written(FieldOf(start.file[j], k'), start.file[j].id, k')
    ensures var r := FieldOf(start.file[i], k).credential;
      var written := plain(FieldOf(start.file[j], k').obscured);
      NoLoss(start, start.(entries := start.entries[r := written]), plain) <==> start.entries[r] == written
  {
    var r := FieldOf(start.file[i], k).credential;
    var now := start.(entries := start.entries[r := plain(FieldOf(start.file[j], k').obscured)]);
    assert Secret(FieldOf(start.file[i], k), start.entries, plain) == Some(start.entries[r]);
    assert Secret(FieldOf(now.file[i], k), now.entries, plain) == Some(now.entries[r]);
    if start.entries[r] == now.entries[r] {
      assert now.entries == start.entries;
    }
    assert NoLoss(start, now, plain) ==> KeepsSecrets(start.file[i], start.entries, now.file[i], now.entries, plain);
  }

  /** Two records, where the second one's reference is the one the first is going to get. */
  const Sharing: seq<Server> := [
    Server("a", Field("x", ""), Field("", ""), ""),
    Server("b", Field("", CredentialReference("a", Password)), Field("", ""), "")
  ]

  /** Moving the first record to the system store then overwrites the second one's secret. */
  lemma SharingLoses(plain: string -> string)
    requires plain("x") != "kept"
    ensures var r := CredentialReference("a", Password);
      var start := World(Sharing, map[r := "kept"]);
      && r in Writes(Sharing[0])
      && Secret(Sharing[1].password, start.entries, plain) == Some("kept")
      && !NoLoss(start, start.(entries := start.entries[r := plain("x")]), plain)
  {
    var r := CredentialReference("a", Password);
    assert FieldOf(Sharing[1], Password) == Field("", r) && FieldOf(Sharing[0], Password) == Field("x", "");
    SharedReferenceLoses(World(Sharing, map[r := "kept"]), 1, Password, 0, Password, plain);
  }

  // ----- a list that is no longer what the file holds -----

  function SecretIn(w: World, id: string, k: CredentialKind, plain: string -> string): Option<string> {
    match Find(w.file, id)
    case Some(s) => Secret(FieldOf(s, k), w.entries, plain)
    case None => None
  }

  /** Every secret that can be recovered in `start` is recovered under the same id in `now`. */
  ghost predicate Recovers(start: World, now: World, plain: string -> string) {
    forall id, k :: SecretIn(start, id, k, plain).Some? ==> SecretIn(now, id, k, plain) == SecretIn(start, id, k, plain)
  }

  lemma CandidateSecret(start: World, now: World, ms: seq<Migration>, target: Storage, i: nat, k: CredentialKind,
                        plain: string -> string)
    requires Undoable(start, now, ms, target, plain) && i < |start.file|
    ensures Secret(FieldOf(ms[i].candidate, k), now.entries, plain)
         == Secret(FieldOf(start.file[i], k), start.entries, plain)
  {
    CandidatesKeep(start, now, ms, target, plain);
    var s, t := start.file[i], Candidates(ms)[i];
    assert KeepsSecrets(s, start.entries, t, now.entries, plain);
    assert s in start.file && Prepared(s, ms[i], target, now.entries, plain);
    assert FieldOf(s, k).credential == "" || FieldOf(s, k).credential in Stored(start.file);
  }

  lemma {:induction false} FindAligned(a: seq<Server>, b: seq<Server>, id: string) returns (i: nat)
    requires |a| == |b| && forall j :: 0 <= j < |a| ==> a[j].id == b[j].id
    ensures if i < |a| then Find(a, id) == Some(a[i]) && Find(b, id) == Some(b[i])
            else Find(a, id) == None && Find(b, id) == None
  {
    if a == [] || a[0].id == id {
      i := 0;
    } else {
      i := FindAligned(a[1..], b[1..], id);
      i := i + 1;
    }
  }

  /** The migration saves what became of the list its caller had read, whatever the file holds by
      then. Nothing is lost exactly when that list still has every secret of the file. */
  lemma StaleListExact(seen: seq<Server>, file: seq<Server>, entries: map<string, string>, now: map<string, string>,
                       ms: seq<Migration>, target: Storage, plain: string -> string)
    requires Undoable(World(seen, entries), World(seen, now), ms, target, plain)
    ensures Recovers(World(file, entries), World(Candidates(ms), now), plain)
            <==> Recovers(World(file, entries), World(seen, entries), plain)
  {
    forall id, k
      ensures SecretIn(World(Candidates(ms), now), id, k, plain) == SecretIn(World(seen, entries), id, k, plain)
    {
      SameSecretIn(World(seen, entries), World(seen, now), ms, target, id, k, plain);
    }
  }

  lemma SameSecretIn(start: World, now: World, ms: seq<Migration>, target: Storage, id: string, k: CredentialKind,
                     plain: string -> string)
    requires Undoable(start, now, ms, target, plain)
    ensures SecretIn(World(Candidates(ms), now.entries), id, k, plain) == SecretIn(start, id, k, plain)
  {
    CandidatesKeep(start, now, ms, target, plain);
    forall j | 0 <= j < |start.file| ensures Candidates(ms)[j].id == start.file[j].id {
      assert KeepsSecrets(start.file[j], start.entries, Candidates(ms)[j], now.entries, plain);
    }
    var i := FindAligned(start.file, Candidates(ms), id);
    if i < |start.file| { CandidateSecret(start, now, ms, target, i, k, plain); }
  }

  /** A connection that was saved after the list was read is lost with its secret. */
  lemma StaleListLoses(added: Server, plain: string -> string, target: Storage)
    requires added.password.credential == "" && added.password.obscured != ""
    ensures Undoable(World([], map[]), World([], map[]), [], target, plain)
    ensures !Recovers(World([added], map[]), World(Candidates([]), map[]), plain)
  {
    assert SecretIn(World([added], map[]), added.id, Password, plain).Some?;
    assert Candidates([]) == [];
    assert SecretIn(World([], map[]), added.id, Password, plain).None?;
  }
}
