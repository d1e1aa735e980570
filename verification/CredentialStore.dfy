/** The credential store operations, against a store that may fail at every call: writing can
    leave anything at the reference whatever it reports, a failed deletion may have happened,
    and only what a read returns is true. */
module CredentialStore {
  import opened Common

  const APP_ID: string := "ssh-mountmate"

  datatype CredentialKind = Password | KeyPassphrase

  datatype CredentialError =
    | Unavailable | Verification(reference: string) | Missing(reference: string) | Reveal | Obscure
    | Persistence(field: string) | Rollback(reference: string)

  function Suffix(kind: CredentialKind): string {
    match kind
    case Password => "password"
    case KeyPassphrase => "key-passphrase"
  }

  function CredentialReference(id: string, kind: CredentialKind): string {
    APP_ID + ":" + id + ":" + Suffix(kind)
  }

  /** A reference names one secret of one server. */
  lemma ReferencesInjective(id: string, kind: CredentialKind, id': string, kind': CredentialKind)
    requires CredentialReference(id, kind) == CredentialReference(id', kind')
    ensures id == id' && kind == kind'
  {
    var (r, r') := (CredentialReference(id, kind), CredentialReference(id', kind'));
    assert r[|r| - 1] == Suffix(kind)[|Suffix(kind)| - 1];
    assert r'[|r'| - 1] == Suffix(kind')[|Suffix(kind')| - 1];
    var n := |APP_ID + ":"|;
    assert r[n..n + |id|] == id && r'[n..n + |id'|] == id';
  }

  // ----- the persisted records and the store -----

  /** One secret of a server: an rclone-obscured copy and a reference into the store; either
      may be empty. */
  datatype Field = Field(obscured: string, credential: string)

  datatype Server = Server(id: string, password: Field, keyPass: Field, rest: string)

  datatype World = World(file: seq<Server>, entries: map<string, string>)

  predicate SameSecrets(a: seq<Server>, b: seq<Server>) {
    |b| == |a| && forall i :: 0 <= i < |a| ==> b[i] == a[i].(rest := b[i].rest)
  }

  function Lookup(entries: map<string, string>, reference: string): Option<string> {
    if reference in entries then Some(entries[reference]) else None
  }

  function Put(entries: map<string, string>, reference: string, value: Option<string>): (r: map<string, string>)
    ensures forall k :: Lookup(r, k) == if k == reference then value else Lookup(entries, k)
  {
    match value
    case Some(v) => entries[reference := v]
    case None => entries - {reference}
  }

  lemma SameLookups(a: map<string, string>, b: map<string, string>)
    requires forall k :: Lookup(a, k) == Lookup(b, k)
    ensures a == b
  {
    forall k ensures k in a <==> k in b {
      assert Lookup(a, k) == Lookup(b, k);
    }
    forall k | k in a ensures a[k] == b[k] {
      assert Lookup(a, k) == Lookup(b, k);
    }
  }

  /** The same records, and a store that differs at most at the references in `touched`. */
  ghost predicate Near(w: World, v: World, touched: set<string>) {
    v.file == w.file && forall k :: k !in touched ==> Lookup(v.entries, k) == Lookup(w.entries, k)
  }

  /** Every state from the end of `a` to the end of `b` is near the last state of `a`. */
  ghost predicate Steps(a: seq<World>, b: seq<World>, touched: set<string>) {
    0 < |a| && a <= b && forall i :: |a| <= i < |b| ==> Near(a[|a| - 1], b[i], touched)
  }

  lemma StepsCompose(a: seq<World>, b: seq<World>, c: seq<World>, touched: set<string>, more: set<string>)
    requires Steps(a, b, touched) && Steps(b, c, more)
    ensures Steps(a, c, touched + more)
  {
    assert Near(a[|a| - 1], b[|b| - 1], touched);
    forall i | |a| <= i < |c| ensures Near(a[|a| - 1], c[i], touched + more) {
      if i < |b| { assert c[i] == b[i]; } else { assert Near(b[|b| - 1], c[i], more); }
    }
  }

  lemma StepsWiden(a: seq<World>, b: seq<World>, touched: set<string>, more: set<string>)
    requires Steps(a, b, touched) && touched <= more
    ensures Steps(a, b, more)
  {
    forall i | |a| <= i < |b| ensures Near(a[|a| - 1], b[i], more) {
      assert Near(a[|a| - 1], b[i], touched);
    }
  }

  lemma StepsEnd(a: seq<World>, b: seq<World>, touched: set<string>)
    requires Steps(a, b, touched)
    ensures Near(a[|a| - 1], b[|b| - 1], touched)
  {
    assert |a| == |b| ==> a == b;
  }

  lemma StepsWithin(a: seq<World>, b: seq<World>, c: seq<World>, touched: set<string>, more: set<string>)
    requires Steps(a, b, touched) && Steps(b, c, more) && more <= touched
    ensures Steps(a, c, touched)
  {
    StepsCompose(a, b, c, touched, more);
    StepsWiden(a, c, touched + more, touched);
  }

  /** The store, the server file, and every state they went through. */
  class Vault {
    var world: World
    ghost var history: seq<World>
    ghost var faults: nat // calls that failed, or did not do what they were asked for
    const plain: string -> string // what an obscured value reveals to

    ghost predicate Valid()
      reads this
    {
      0 < |history| && history[|history| - 1] == world
    }

    constructor (start: World, plain: string -> string)
      ensures Valid() && world == start && history == [start] && this.plain == plain
    {
      world, history, this.plain := start, [start], plain;
    }

    method Set(reference: string, secret: string) returns (r: Result<(), CredentialError>)
      requires Valid()
      modifies this
      ensures Valid() && Steps(old(history), history, {reference})
      ensures r.Err? ==> r.error.Unavailable?
      ensures faults >= old(faults)
      ensures faults == old(faults) ==> r.Ok? && Lookup(world.entries, reference) == Some(secret)
    {
      var ok: bool := *;
      var now: Option<string> := *;
      r := if ok then Ok(()) else Err(Unavailable);
      if !ok || now != Some(secret) { faults := faults + 1; }
      world := world.(entries := Put(world.entries, reference, now));
      history := history + [world];
    }

    method Get(reference: string) returns (r: Result<string, CredentialError>)
      requires Valid()
      modifies this`faults
      ensures faults >= old(faults) && (faults == old(faults) ==> r.Ok? || r.error == Missing(reference))
      ensures r.Ok? ==> Lookup(world.entries, reference) == Some(r.value)
      ensures r.Err? ==> r.error.Unavailable? || (r.error == Missing(reference) && reference !in world.entries)
    {
      var available: bool := *;
      if !available { faults := faults + 1; }
      r := if !available then Err(Unavailable)
           else if reference in world.entries then Ok(world.entries[reference]) else Err(Missing(reference));
    }

    method Delete(reference: string) returns (r: Result<(), CredentialError>)
      requires Valid()
      modifies this
      ensures Valid() && Steps(old(history), history, {reference})
      ensures r.Ok? ==> reference !in world.entries
      ensures r.Err? ==> r.error.Unavailable?
      ensures faults >= old(faults) && (faults == old(faults) ==> r.Ok?)
    {
      var ok: bool := *;
      var now: Option<string> := *;
      if !ok { faults := faults + 1; }
      r := if ok then Ok(()) else Err(Unavailable);
      world := world.(entries := Put(world.entries, reference, if ok then None else now));
      history := history + [world];
    }

    /** Replaces the server file in one step; a failure may still have replaced it. */
    method SaveServers(servers: seq<Server>) returns (ok: bool)
      requires Valid()
      modifies this
      ensures Valid() && world.entries == old(world.entries) && history == old(history) + [world]
      ensures world.file == servers || (!ok && world.file == old(world.file))
      ensures faults >= old(faults) && (faults == old(faults) ==> ok)
    {
      ok := *;
      if !ok { faults := faults + 1; }
      var done: bool := *;
      if ok || done { world := world.(file := servers); }
      history := history + [world];
    }

    /** Rewrites the records' other settings, in one step that may fail after taking effect. */
    method UpdatePreferences() returns (r: Option<seq<Server>>)
      requires Valid()
      modifies this
      ensures Valid() && world.entries == old(world.entries) && history == old(history) + [world]
      ensures SameSecrets(old(world.file), world.file) && (r.Some? ==> r.value == world.file)
      ensures faults >= old(faults) && (faults == old(faults) ==> r.Some?)
    {
      var servers: seq<Server> := *;
      if SameSecrets(world.file, servers) { world := world.(file := servers); }
      var ok: bool := *;
      if !ok { faults := faults + 1; }
      r := if ok then Some(world.file) else None;
      history := history + [world];
    }

    /** A step outside the server file and the store. */
    method Elsewhere() returns (ok: bool)
      requires Valid()
      modifies this`faults
      ensures faults >= old(faults) && (faults == old(faults) ==> ok)
    {
      ok := *;
      if !ok { faults := faults + 1; }
    }

    /** Reads and normalises the server file: what comes back is checked by the caller. */
    method LoadServers() returns (r: Option<seq<Server>>)
      requires Valid()
      modifies this`faults
      ensures faults >= old(faults) && (faults == old(faults) ==> r == Some(world.file))
    {
      r := *;
      if r != Some(world.file) { faults := faults + 1; }
    }

    method RevealSecret(obscured: string) returns (r: Result<string, CredentialError>)
      modifies this`faults
      ensures faults >= old(faults) && (faults == old(faults) ==> r.Ok?)
      ensures r.Ok? ==> r.value == plain(obscured)
      ensures r.Err? ==> r.error.Reveal?
    {
      var ok: bool := *;
      if !ok { faults := faults + 1; }
      r := if ok then Ok(plain(obscured)) else Err(Reveal);
    }

    method ObscureSecret(secret: string) returns (r: Result<string, CredentialError>)
      modifies this`faults
      ensures faults >= old(faults) && (faults == old(faults) ==> r.Ok?)
      ensures r.Ok? ==> r.value != "" && plain(r.value) == secret
      ensures r.Err? ==> r.error.Obscure?
    {
      var obscured: string := *;
      r := if obscured != "" && plain(obscured) == secret then Ok(obscured) else Err(Obscure);
      if r.Err? { faults := faults + 1; }
    }
  }

  /** One write of a reference, and the value it replaced. */
  datatype Change = Change(reference: string, previous: Option<string>)

  /** The store with the changes taken back, the last one first. */
  function Undo(entries: map<string, string>, changes: seq<Change>): map<string, string>
    decreases |changes|
  {
    if changes == [] then entries
    else
      var last := changes[|changes| - 1];
      Undo(Put(entries, last.reference, last.previous), changes[..|changes| - 1])
  }

  function References(changes: seq<Change>): (r: set<string>) {
    set c | c in changes :: c.reference
  }

  lemma UndoSplit(entries: map<string, string>, first: seq<Change>, second: seq<Change>)
    ensures Undo(entries, first + second) == Undo(Undo(entries, second), first)
    decreases |second|
  {
    if second == [] {
      assert first + second == first;
    } else {
      var last := second[|second| - 1];
      assert (first + second)[..|first + second| - 1] == first + second[..|second| - 1];
      UndoSplit(Put(entries, last.reference, last.previous), first, second[..|second| - 1]);
    }
  }

  method RestorePrevious(store: Vault, reference: string, previous: Option<string>)
    returns (r: Result<(), CredentialError>)
    requires store.Valid()
    modifies store
    ensures store.Valid() && Steps(old(store.history), store.history, {reference})
    ensures r.Ok? ==> store.world == old(store.world).(entries := Put(old(store.world.entries), reference, previous))
    ensures r.Err? ==> r.error == Rollback(reference)
    ensures store.faults >= old(store.faults) + (if r.Err? then 1 else 0)
  {
    match previous {
      case Some(value) =>
        var written := store.Set(reference, value);
        if written.Err? { return Err(Rollback(reference)); }
        var restored := store.Get(reference);
        if restored != Ok(value) { return Err(Rollback(reference)); }
      case None =>
        var deleted := store.Delete(reference);
        if deleted.Err? { return Err(Rollback(reference)); }
    }
    assert Near(old(store.world), store.world, {reference});
    SameLookups(store.world.entries, Put(old(store.world.entries), reference, previous));
    r := Ok(());
  }

  /** An error takes a fault, and a failed rollback another one. */
  function Failures<T>(r: Result<T, CredentialError>): nat {
    if r.Ok? then 0 else if r.error.Rollback? then 2 else 1
  }

  /** Writes and verifies; unless it reports a failed rollback, a failure leaves the store as it was. */
  method ReplaceVerified(store: Vault, reference: string, secret: string)
    returns (r: Result<Change, CredentialError>)
    requires store.Valid()
    modifies store
    ensures store.Valid() && Steps(old(store.history), store.history, {reference})
    ensures r.Ok? ==> store.world == old(store.world).(entries := old(store.world.entries)[reference := secret])
    ensures r.Ok? ==> r.value == Change(reference, Lookup(old(store.world.entries), reference))
    ensures r.Err? && !r.error.Rollback? ==> store.world == old(store.world)
    ensures r.Err? && r.error.Rollback? ==> r.error.reference == reference
    ensures store.faults >= old(store.faults) + Failures(r)
    ensures r.Err? ==> UpTo(store.world.entries, old(store.world.entries), store.faults - old(store.faults))
  {
    UpToSame(store.world.entries);
    var found := store.Get(reference);
    if found.Err? && !found.error.Missing? {
      UpToMore(store.world.entries, old(store.world.entries), 0, store.faults - old(store.faults));
      return Err(found.error);
    }
    var previous := if found.Ok? then Some(found.value) else None;
    var written := store.Set(reference, secret);
    var error := if written.Err? then written.error else Verification(reference);
    if written.Ok? {
      var stored := store.Get(reference);
      if stored == Ok(secret) {
        assert Near(old(store.world), store.world, {reference});
        SameLookups(store.world.entries, old(store.world.entries)[reference := secret]);
        return Ok(Change(reference, previous));
      }
    }
    ghost var between := store.history;
    ghost var torn := store.world.entries;
    var restored := RestorePrevious(store, reference, previous);
    StepsWithin(old(store.history), between, store.history, {reference}, {reference});
    assert Near(old(store.world), store.world, {reference});
    if restored.Ok? {
      SameLookups(store.world.entries, old(store.world.entries));
    }
    UpToBy(store.world.entries, old(store.world.entries), if restored.Ok? then {} else {reference},
           store.faults - old(store.faults));
    r := Err(if restored.Ok? then error else restored.error);
  }

  method StoreVerified(store: Vault, reference: string, secret: string) returns (r: Result<(), CredentialError>)
    requires store.Valid()
    modifies store
    ensures store.Valid() && Steps(old(store.history), store.history, {reference})
    ensures r.Ok? ==> store.world == old(store.world).(entries := old(store.world.entries)[reference := secret])
    ensures r.Err? && !r.error.Rollback? ==> store.world == old(store.world)
    ensures store.faults >= old(store.faults) + Failures(r)
  {
    var change := ReplaceVerified(store, reference, secret);
    r := if change.Ok? then Ok(()) else Err(change.error);
  }

  method RollbackChange(store: Vault, change: Change) returns (r: Result<(), CredentialError>)
    requires store.Valid()
    modifies store
    ensures store.Valid() && Steps(old(store.history), store.history, {change.reference})
    ensures r.Ok? ==>
              store.world
              == old(store.world).(entries := Put(old(store.world.entries), change.reference, change.previous))
    ensures r.Err? ==> r.error.Rollback?
    ensures store.faults >= old(store.faults) + (if r.Err? then 1 else 0)
  {
    r := RestorePrevious(store, change.reference, change.previous);
  }

  /** Takes every change back even when one fails; only a complete undo is reported as success. */
  method RollbackChanges(store: Vault, changes: seq<Change>) returns (r: Result<(), CredentialError>)
    requires store.Valid()
    modifies store
    ensures store.Valid() && Steps(old(store.history), store.history, References(changes))
    ensures r.Ok? ==> store.world == old(store.world).(entries := Undo(old(store.world.entries), changes))
    ensures r.Err? ==> r.error.Rollback?
    ensures store.faults >= old(store.faults) + (if r.Err? then 1 else 0)
    ensures UpTo(store.world.entries, Undo(old(store.world.entries), changes), store.faults - old(store.faults))
  {
    r := Ok(());
    var i := |changes|;
    assert changes[..i] == changes;
    UpToSame(store.world.entries);
    while i > 0
      invariant 0 <= i <= |changes|
      invariant store.Valid() && Steps(old(store.history), store.history, References(changes))
      invariant store.world.file == old(store.world.file)
      invariant r.Ok? ==> Undo(store.world.entries, changes[..i]) == Undo(old(store.world.entries), changes)
      invariant r.Err? ==> r.error.Rollback?
      invariant store.faults >= old(store.faults) + (if r.Err? then 1 else 0)
      invariant UpTo(Undo(store.world.entries, changes[..i]), Undo(old(store.world.entries), changes),
                     store.faults - old(store.faults))
    {
      ghost var between := store.history;
      ghost var (before, faults) := (store.world.entries, store.faults);
      i := i - 1;
      var undone := RollbackChange(store, changes[i]);
      assert changes[..i + 1][..i] == changes[..i];
      assert changes[i] in changes;
      StepsWithin(old(store.history), between, store.history, References(changes), {changes[i].reference});
      assert Near(old(store.world), store.world, References(changes));
      UndoNext(changes, i, before, store.world.entries, Undo(old(store.world.entries), changes), undone,
               faults - old(store.faults), store.faults - old(store.faults));
      if undone.Err? { r := undone; }
    }
  }

  /** The stores differ at no more than `n` references. */
  ghost predicate UpTo(a: map<string, string>, b: map<string, string>, n: int) {
    exists torn: set<string> :: |torn| <= n && AgreeBut(a, b, torn)
  }

  ghost predicate AgreeBut(a: map<string, string>, b: map<string, string>, torn: set<string>) {
    forall k :: k !in torn ==> Lookup(a, k) == Lookup(b, k)
  }

  lemma UpToSame(a: map<string, string>)
    ensures UpTo(a, a, 0)
  {
    assert AgreeBut(a, a, {});
  }

  lemma UpToBy(a: map<string, string>, b: map<string, string>, torn: set<string>, n: int)
    requires |torn| <= n && AgreeBut(a, b, torn)
    ensures UpTo(a, b, n)
  {
  }

  lemma UpToMore(a: map<string, string>, b: map<string, string>, m: int, n: int)
    requires UpTo(a, b, m) && m <= n
    ensures UpTo(a, b, n)
  {
    var torn :| |torn| <= m && AgreeBut(a, b, torn);
    assert |torn| <= n;
  }

  lemma UpToNone(a: map<string, string>, b: map<string, string>)
    requires UpTo(a, b, 0)
    ensures a == b
  {
    var torn :| |torn| <= 0 && AgreeBut(a, b, torn);
    assert torn == {};
    SameLookups(a, b);
  }

  /** One more difference. */
  lemma UpToOther(a: map<string, string>, b: map<string, string>, c: map<string, string>, k: string, n: int)
    requires AgreeBut(a, b, {k}) && UpTo(b, c, n)
    ensures UpTo(a, c, n + 1)
  {
    var torn :| |torn| <= n && AgreeBut(b, c, torn);
    var more := torn + {k};
    assert |more| <= |torn| + 1 && AgreeBut(a, c, more);
  }

  lemma {:induction false} UndoAgrees(a: map<string, string>, b: map<string, string>, changes: seq<Change>,
                                      torn: set<string>)
    requires AgreeBut(a, b, torn)
    ensures AgreeBut(Undo(a, changes), Undo(b, changes), torn)
    decreases |changes|
  {
    if changes != [] {
      var last := changes[|changes| - 1];
      UndoAgrees(Put(a, last.reference, last.previous), Put(b, last.reference, last.previous),
                 changes[..|changes| - 1], torn);
    }
  }

  lemma UndoUpTo(a: map<string, string>, b: map<string, string>, changes: seq<Change>, n: int)
    requires UpTo(a, b, n)
    ensures UpTo(Undo(a, changes), Undo(b, changes), n)
  {
    var torn :| |torn| <= n && AgreeBut(a, b, torn);
    UndoAgrees(a, b, changes, torn);
  }

  lemma UpToTrans(a: map<string, string>, b: map<string, string>, c: map<string, string>, m: int, n: int)
    requires UpTo(a, b, m) && UpTo(b, c, n)
    ensures UpTo(a, c, m + n)
  {
    var t :| |t| <= m && AgreeBut(a, b, t);
    var u :| |u| <= n && AgreeBut(b, c, u);
    assert |t + u| <= |t| + |u| && AgreeBut(a, c, t + u);
  }

  lemma UndoNext(changes: seq<Change>, i: nat, before: map<string, string>, now: map<string, string>,
                 wanted: map<string, string>, undone: Result<(), CredentialError>, m: int, n: int)
    requires i < |changes| && UpTo(Undo(before, changes[..i + 1]), wanted, m)
    requires if undone.Ok? then now == Put(before, changes[i].reference, changes[i].previous) && m <= n
             else AgreeBut(now, before, {changes[i].reference}) && m < n
    ensures UpTo(Undo(now, changes[..i]), wanted, n)
  {
    var c := changes[i];
    var put := Put(before, c.reference, c.previous);
    assert changes[..i + 1][..i] == changes[..i];
    assert Undo(before, changes[..i + 1]) == Undo(put, changes[..i]);
    if undone.Ok? {
      UpToMore(Undo(now, changes[..i]), wanted, m, n);
    } else {
      assert AgreeBut(now, put, {c.reference});
      UndoAgrees(now, put, changes[..i], {c.reference});
      UpToOther(Undo(now, changes[..i]), Undo(put, changes[..i]), wanted, c.reference, m);
      UpToMore(Undo(now, changes[..i]), wanted, m + 1, n);
    }
  }

  // ----- deleting references -----

  function NonEmpty(references: seq<string>): set<string> {
    set r | r in references && r != ""
  }

  /** The references with an entry, and what they held. */
  ghost predicate Captured(existing: seq<(string, string)>, references: seq<string>, entries: map<string, string>) {
    && (forall p <- existing :: p.0 in NonEmpty(references) && Lookup(entries, p.0) == Some(p.1))
    && (forall k <- NonEmpty(references) :: k in entries ==> exists p :: p in existing && p.0 == k)
  }

  function Firsts(pairs: seq<(string, string)>): set<string> {
    set p | p in pairs :: p.0
  }

  /** `now` is `start` without the entries of `gone`. */
  ghost predicate Without(now: map<string, string>, gone: set<string>, start: map<string, string>) {
    forall k :: Lookup(now, k) == if k in gone then None else Lookup(start, k)
  }

  lemma WithoutAll(now: map<string, string>, existing: seq<(string, string)>, references: seq<string>,
                   start: map<string, string>)
    requires Captured(existing, references, start) && Without(now, Firsts(existing), start)
    ensures now == start - NonEmpty(references)
  {
    var wanted := start - NonEmpty(references);
    forall k ensures Lookup(now, k) == Lookup(wanted, k) {
      if k in Firsts(existing) {
        var p :| p in existing && p.0 == k;
      } else {
        assert k in NonEmpty(references) && k in start ==> exists p :: p in existing && p.0 == k;
      }
    }
    SameLookups(now, wanted);
  }

  method CaptureExisting(store: Vault, references: seq<string>)
    returns (r: Result<seq<(string, string)>, CredentialError>)
    requires store.Valid()
    modifies store`faults
    ensures r.Ok? ==> Captured(r.value, references, store.world.entries)
    ensures r.Err? ==> r.error.Unavailable?
    ensures store.faults >= old(store.faults) + Failures(r)
  {
    var existing := [];
    for i := 0 to |references|
      invariant Captured(existing, references[..i], store.world.entries) && store.faults >= old(store.faults)
    {
      ghost var before := existing;
      if references[i] != "" {
        var found := store.Get(references[i]);
        match found {
          case Ok(secret) => existing := existing + [(references[i], secret)];
          case Err(Missing(_)) =>
          case Err(error) => return Err(error);
        }
      }
      assert references[..i + 1] == references[..i] + [references[i]];
      forall k | k in NonEmpty(references[..i + 1]) && k in store.world.entries
        ensures exists p :: p in existing && p.0 == k
      {
        if k in NonEmpty(references[..i]) {
          var p :| p in before && p.0 == k;
          assert p in existing;
        } else {
          assert existing[|existing| - 1].0 == k;
        }
      }
    }
    assert references[..|references|] == references;
    r := Ok(existing);
  }

  ghost predicate Consistent(pairs: seq<(string, string)>, entries: map<string, string>) {
    forall p <- pairs :: Lookup(entries, p.0) == Some(p.1)
  }

  lemma RestoreNext(existing: seq<(string, string)>, i: nat, before: map<string, string>, now: map<string, string>,
                    start: map<string, string>, torn: set<string>, restored: Result<(), CredentialError>)
    requires i < |existing| && Consistent(existing, start)
    requires AgreeBut(before, start, Firsts(existing[i..]) + torn) && AgreeBut(now, before, {existing[i].0})
    requires restored.Ok? ==> now == before[existing[i].0 := existing[i].1]
    ensures AgreeBut(now, start, Firsts(existing[i + 1..]) + torn + if restored.Ok? then {} else {existing[i].0})
  {
    assert existing[i..] == [existing[i]] + existing[i + 1..] && existing[i] in existing;
    assert Firsts(existing[i..]) == Firsts(existing[i + 1..]) + {existing[i].0};
  }

  /** Writes the captured entries back, going on after a failure: what differs from `start` then is
      at most one of them for each fault. */
  method RestoreAll(store: Vault, existing: seq<(string, string)>, ghost start: map<string, string>)
    returns (r: Result<(), CredentialError>)
    requires store.Valid() && Consistent(existing, start)
    requires AgreeBut(store.world.entries, start, Firsts(existing))
    modifies store
    ensures store.Valid() && Steps(old(store.history), store.history, Firsts(existing))
    ensures store.faults >= old(store.faults) + (if r.Err? then 1 else 0)
    ensures UpTo(store.world.entries, start, store.faults - old(store.faults))
  {
    r := Ok(());
    ghost var (touched, torn) := (Firsts(existing), {});
    assert existing[0..] == existing && Firsts(existing) + {} == Firsts(existing);
    for i := 0 to |existing|
      invariant store.Valid() && Steps(old(store.history), store.history, touched)
      invariant store.faults >= old(store.faults) + (if r.Err? then 1 else 0)
      invariant |torn| <= store.faults - old(store.faults)
      invariant AgreeBut(store.world.entries, start, Firsts(existing[i..]) + torn)
    {
      var restored;
      restored, torn := RestoreOne(store, existing, i, start, torn, old(store.history));
      if restored.Err? { r := restored; }
    }
    assert existing[|existing|..] == [] && Firsts([]) + torn == torn;
    UpToBy(store.world.entries, start, torn, store.faults - old(store.faults));
  }

  method RestoreOne(store: Vault, existing: seq<(string, string)>, i: nat, ghost start: map<string, string>,
                    ghost torn: set<string>, ghost began: seq<World>)
    returns (r: Result<(), CredentialError>, ghost more: set<string>)
    requires store.Valid() && i < |existing| && Consistent(existing, start)
    requires Steps(began, store.history, Firsts(existing))
    requires AgreeBut(store.world.entries, start, Firsts(existing[i..]) + torn)
    modifies store
    ensures store.Valid() && Steps(began, store.history, Firsts(existing))
    ensures store.faults >= old(store.faults) + Failures(r) && |more| <= |torn| + (if r.Err? then 1 else 0)
    ensures AgreeBut(store.world.entries, start, Firsts(existing[i + 1..]) + more)
  {
    ghost var between := store.history;
    r := StoreVerified(store, existing[i].0, existing[i].1);
    assert existing[i] in existing;
    StepsWithin(began, between, store.history, Firsts(existing), {existing[i].0});
    StepsEnd(between, store.history, {existing[i].0});
    RestoreNext(existing, i, old(store.world.entries), store.world.entries, start, torn, r);
    more := torn + if r.Ok? then {} else {existing[i].0};
    assert Firsts(existing[i + 1..]) + torn + (if r.Ok? then {} else {existing[i].0})
        == Firsts(existing[i + 1..]) + more;
  }

  /** Removes every listed reference and nothing else; when a deletion fails, what was deleted is
      written back, and each further fault spoils at most one entry. */
  method DeleteCredentialReferences(store: Vault, references: seq<string>) returns (r: Result<(), CredentialError>)
    requires store.Valid()
    modifies store
    ensures store.Valid() && Steps(old(store.history), store.history, NonEmpty(references))
    ensures r.Ok? ==> store.world == old(store.world).(entries := old(store.world.entries) - NonEmpty(references))
    ensures store.faults >= old(store.faults) + (if r.Err? then 1 else 0)
    ensures r.Err? ==> UpTo(store.world.entries, old(store.world.entries), store.faults - old(store.faults) - 1)
  {
    var captured := CaptureExisting(store, references);
    if captured.Err? {
      UpToSame(store.world.entries);
      UpToMore(store.world.entries, store.world.entries, 0, store.faults - old(store.faults) - 1);
      return Err(captured.error);
    }
    var existing := captured.value;
    ghost var all := NonEmpty(references);
    var i := 0;
    while i < |existing|
      invariant 0 <= i <= |existing| && store.faults >= old(store.faults)
      invariant store.Valid() && Steps(old(store.history), store.history, all)
      invariant Without(store.world.entries, Firsts(existing[..i]), old(store.world.entries))
    {
      ghost var (between, before, faults) := (store.history, store.world, store.faults);
      var deleted := store.Delete(existing[i].0);
      assert existing[i] in existing;
      StepsWithin(old(store.history), between, store.history, all, {existing[i].0});
      assert Near(before, store.world, {existing[i].0});
      assert existing[..i + 1] == existing[..i] + [existing[i]];
      assert Firsts(existing[..i + 1]) == Firsts(existing[..i]) + {existing[i].0};
      if deleted.Err? {
        ghost var failed := store.faults;
        r := UndoDeletion(store, existing[..i + 1], old(store.world.entries), all, old(store.history), deleted.error);
        UpToMore(store.world.entries, old(store.world.entries), store.faults - failed,
                 store.faults - old(store.faults) - 1);
        return;
      }
      i := i + 1;
    }
    assert existing[..i] == existing;
    WithoutAll(store.world.entries, existing, references, old(store.world.entries));
    r := Ok(());
  }

  method UndoDeletion(store: Vault, touched: seq<(string, string)>, ghost start: map<string, string>,
                      ghost all: set<string>, ghost began: seq<World>, error: CredentialError)
    returns (r: Result<(), CredentialError>)
    requires store.Valid() && Steps(began, store.history, all)
    requires forall p <- touched :: p.0 in all
    requires Consistent(touched, start) && AgreeBut(store.world.entries, start, Firsts(touched))
    modifies store
    ensures store.Valid() && Steps(began, store.history, all) && r.Err?
    ensures store.faults >= old(store.faults)
    ensures UpTo(store.world.entries, start, store.faults - old(store.faults))
  {
    ghost var between := store.history;
    var undone := RestoreAll(store, touched, start);
    StepsWithin(began, between, store.history, all, Firsts(touched));
    r := Err(if undone.Ok? then error else undone.error);
  }
}
