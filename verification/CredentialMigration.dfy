/** Moving one server's secrets between the two representations: the candidate carries both,
    and only after it was persisted and reloaded is the old one retired. */
module CredentialMigration {
  import opened Common
  import opened CredentialStore

  datatype Storage = System | Obscure

  datatype Migration = Migration(candidate: Server, changes: seq<Change>, retired: seq<string>, kind: Storage)

  function FieldOf(server: Server, kind: CredentialKind): Field {
    match kind
    case Password => server.password
    case KeyPassphrase => server.keyPass
  }

  /** The reference written for a field: none when it already has one or has no secret. */
  function Written(field: Field, id: string, kind: CredentialKind): set<string> {
    if field.credential == "" && field.obscured != "" then {CredentialReference(id, kind)} else {}
  }

  function Writes(server: Server): set<string> {
    Written(server.password, server.id, Password) + Written(server.keyPass, server.id, KeyPassphrase)
  }

  /** The field has a reference that the store does not hold. */
  predicate FieldDangling(field: Field, entries: map<string, string>) {
    field.credential != "" && field.credential !in entries
  }

  ghost predicate Dangling(server: Server, entries: map<string, string>) {
    exists k :: FieldDangling(FieldOf(server, k), entries)
  }

  /** An error takes a fault, unless a reference dangles; a failed rollback takes one more. */
  ghost predicate Explained<T>(r: Result<T, CredentialError>, dangling: bool, faults: int) {
    faults + (if dangling then 1 else 0) >= Failures(r)
  }

  /** `now` is the migrated `field`: its obscured copy stays, and its reference holds the
      revealed plaintext if it is new and something if it was there. */
  ghost predicate FieldToSystem(field: Field, now: Field, id: string, kind: CredentialKind,
                                entries: map<string, string>, plain: string -> string)
  {
    && now.obscured == field.obscured
    && if field.credential != "" then now.credential == field.credential && now.credential in entries
       else if field.obscured == "" then now.credential == ""
       else now.credential == CredentialReference(id, kind)
            && Lookup(entries, now.credential) == Some(plain(field.obscured))
  }

  /** Moves one field, taking note of the change. */
  method MigrateObscuredField(store: Vault, field: Field, id: string, kind: CredentialKind, changes: seq<Change>)
    returns (r: Result<(), CredentialError>, migrated: Field, made: seq<Change>)
    requires store.Valid()
    modifies store
    ensures store.Valid() && Steps(old(store.history), store.history, Written(field, id, kind))
    ensures r.Ok? ==> FieldToSystem(field, migrated, id, kind, store.world.entries, store.plain)
    ensures r.Ok? ==> Undo(store.world.entries, made) == Undo(old(store.world.entries), changes)
    ensures r.Ok? ==> References(made) == References(changes) + Written(field, id, kind)
    ensures r.Err? ==> made == changes
    ensures r.Err? && !r.error.Rollback? ==> store.world == old(store.world)
    ensures Explained(r, FieldDangling(field, old(store.world.entries)), store.faults - old(store.faults))
    ensures store.faults >= old(store.faults)
    ensures r.Err? ==> UpTo(store.world.entries, old(store.world.entries), store.faults - old(store.faults))
  {
    r, migrated, made := Ok(()), field, changes;
    if field.credential != "" {
      r := CheckHeld(store, field.credential);
      return;
    }
    if field.obscured == "" { return; }
    var reference := CredentialReference(id, kind);
    var change := StoreRevealed(store, field.obscured, reference);
    if change.Err? { return Err(change.error), field, changes; }
    made := changes + [change.value];
    migrated := field.(credential := reference);
    assert made[..|made| - 1] == changes;
    SameLookups(Put(store.world.entries, reference, change.value.previous), old(store.world.entries));
    assert References(made) == References(changes) + {reference};
  }

  method CheckHeld(store: Vault, reference: string) returns (r: Result<(), CredentialError>)
    requires store.Valid()
    modifies store`faults
    ensures r.Ok? ==> reference in store.world.entries
    ensures r.Err? ==> !r.error.Rollback?
    ensures Explained(r, reference !in store.world.entries, store.faults - old(store.faults))
    ensures store.faults >= old(store.faults)
    ensures UpTo(store.world.entries, old(store.world.entries), store.faults - old(store.faults))
  {
    var held := store.Get(reference);
    r := if held.Ok? then Ok(()) else Err(held.error);
    UpToSame(store.world.entries);
    UpToMore(store.world.entries, old(store.world.entries), 0, store.faults - old(store.faults));
  }

  method StoreRevealed(store: Vault, obscured: string, reference: string) returns (r: Result<Change, CredentialError>)
    requires store.Valid()
    modifies store
    ensures store.Valid() && Steps(old(store.history), store.history, {reference})
    ensures r.Ok? ==>
              store.world == old(store.world).(entries := old(store.world.entries)[reference := store.plain(obscured)])
    ensures r.Ok? ==> r.value == Change(reference, Lookup(old(store.world.entries), reference))
    ensures r.Err? && !r.error.Rollback? ==> store.world == old(store.world)
    ensures store.faults >= old(store.faults) + Failures(r)
    ensures r.Err? ==> UpTo(store.world.entries, old(store.world.entries), store.faults - old(store.faults))
  {
    var plaintext := store.RevealSecret(obscured);
    if plaintext.Err? {
      UpToSame(store.world.entries);
      UpToMore(store.world.entries, old(store.world.entries), 0, store.faults - old(store.faults));
      return Err(plaintext.error);
    }
    ghost var faults := store.faults;
    r := ReplaceVerified(store, reference, plaintext.value);
    if r.Err? {
      UpToMore(store.world.entries, old(store.world.entries), store.faults - faults, store.faults - old(store.faults));
    }
  }

  ghost predicate ToSystem(server: Server, candidate: Server, entries: map<string, string>, plain: string -> string) {
    && candidate.id == server.id
    && forall k :: FieldToSystem(FieldOf(server, k), FieldOf(candidate, k), server.id, k, entries, plain)
  }

  /** Both fields in turn, up to the first failure. */
  method MigrateFields(store: Vault, server: Server)
    returns (r: Result<(), CredentialError>, candidate: Server, changes: seq<Change>)
    requires store.Valid()
    modifies store
    ensures store.Valid() && Steps(old(store.history), store.history, Writes(server))
    ensures References(changes) <= Writes(server)
    ensures r.Ok? ==> ToSystem(server, candidate, store.world.entries, store.plain) && candidate.rest == server.rest
    ensures r.Ok? || !r.error.Rollback? ==> Undo(store.world.entries, changes) == old(store.world.entries)
    ensures Explained(r, Dangling(server, old(store.world.entries)), store.faults - old(store.faults))
    ensures store.faults >= old(store.faults)
    ensures r.Err? ==>
              UpTo(Undo(store.world.entries, changes), old(store.world.entries), store.faults - old(store.faults))
  {
    var password, keyPass;
    r, password, changes := MigrateObscuredField(store, server.password, server.id, Password, []);
    StepsWiden(old(store.history), store.history, Written(server.password, server.id, Password), Writes(server));
    candidate := server.(password := password);
    assert FieldOf(server, Password) == server.password && FieldOf(server, KeyPassphrase) == server.keyPass;
    if r.Err? { return; }
    StepsEnd(old(store.history), store.history, Written(server.password, server.id, Password));
    SecondDangling(server, password, old(store.world), store.world, store.plain);
    ghost var middle := store.faults;
    r, keyPass, changes := MigrateSecond(store, server, password, changes, old(store.history));
    candidate := candidate.(keyPass := keyPass);
    assert Explained(r, Dangling(server, old(store.world.entries)), store.faults - middle);
    if r.Err? {
      UpToMore(Undo(store.world.entries, changes), old(store.world.entries), store.faults - middle,
               store.faults - old(store.faults));
    }
  }

  method MigrateSecond(store: Vault, server: Server, password: Field, changes: seq<Change>, ghost began: seq<World>)
    returns (r: Result<(), CredentialError>, keyPass: Field, made: seq<Change>)
    requires store.Valid() && Steps(began, store.history, Writes(server))
    requires FieldToSystem(server.password, password, server.id, Password, store.world.entries, store.plain)
    requires References(changes) <= Writes(server)
    modifies store
    ensures store.Valid() && Steps(began, store.history, Writes(server)) && References(made) <= Writes(server)
    ensures r.Ok? ==>
              ToSystem(server, server.(password := password, keyPass := keyPass), store.world.entries, store.plain)
    ensures r.Ok? || !r.error.Rollback? ==> Undo(store.world.entries, made) == Undo(old(store.world.entries), changes)
    ensures Explained(r, FieldDangling(server.keyPass, old(store.world.entries)), store.faults - old(store.faults))
    ensures store.faults >= old(store.faults)
    ensures r.Err? ==> UpTo(Undo(store.world.entries, made), Undo(old(store.world.entries), changes),
                            store.faults - old(store.faults))
  {
    ghost var between, middle := store.history, store.world;
    r, keyPass, made := MigrateObscuredField(store, server.keyPass, server.id, KeyPassphrase, changes);
    SecondField(server, between, store.history, began);
    if r.Ok? {
      FirstField(server, password, middle, store.world, store.plain);
    } else {
      UndoUpTo(store.world.entries, middle.entries, changes, store.faults - old(store.faults));
    }
  }

  /** Writes and verifies a server's secrets; a failure that could be rolled back changes nothing. */
  method PrepareServerToSystem(store: Vault, server: Server) returns (r: Result<Migration, CredentialError>)
    requires store.Valid()
    modifies store
    ensures store.Valid() && Steps(old(store.history), store.history, Writes(server))
    ensures r.Ok? ==> ToSystem(server, r.value.candidate, store.world.entries, store.plain)
    ensures r.Ok? ==> r.value.kind == System && r.value.candidate.rest == server.rest
    ensures r.Ok? ==> Undo(store.world.entries, r.value.changes) == old(store.world.entries)
    ensures r.Ok? ==> References(r.value.changes) <= Writes(server)
    ensures r.Err? && !r.error.Rollback? ==> store.world == old(store.world)
    ensures Explained(r, Dangling(server, old(store.world.entries)), store.faults - old(store.faults))
    ensures store.faults >= old(store.faults)
    ensures r.Err? ==> UpTo(store.world.entries, old(store.world.entries), store.faults - old(store.faults))
  {
    var result, candidate, changes := MigrateFields(store, server);
    if result.Ok? {
      return Ok(Migration(candidate, changes, [], System));
    }
    ghost var (failed, torn, faults) := (store.history, store.world.entries, store.faults);
    var undone := RollbackChanges(store, changes);
    UpToTrans(store.world.entries, Undo(torn, changes), old(store.world.entries), store.faults - faults,
              faults - old(store.faults));
    StepsWithin(old(store.history), failed, store.history, Writes(server), References(changes));
    assert Near(old(store.world), store.world, Writes(server));
    r := Err(if undone.Ok? then result.error else undone.error);
  }

  /** The first field's write takes nothing away that the second one refers to. */
  lemma SecondDangling(server: Server, password: Field, start: World, middle: World, plain: string -> string)
    requires FieldToSystem(server.password, password, server.id, Password, middle.entries, plain)
             || middle.entries == start.entries
    requires Near(start, middle, Written(server.password, server.id, Password))
    ensures FieldDangling(server.keyPass, middle.entries) ==> Dangling(server, start.entries)
  {
    assert FieldOf(server, KeyPassphrase) == server.keyPass;
    var r := server.keyPass.credential;
    assert Lookup(start.entries, r) == Lookup(middle.entries, r) || r in Written(server.password, server.id, Password);
  }

  lemma SecondField(server: Server, between: seq<World>, ended: seq<World>, began: seq<World>)
    requires Steps(began, between, Writes(server))
    requires Steps(between, ended, Written(server.keyPass, server.id, KeyPassphrase))
    ensures Steps(began, ended, Writes(server))
    ensures Near(between[|between| - 1], ended[|ended| - 1], Written(server.keyPass, server.id, KeyPassphrase))
  {
    var more := Written(server.keyPass, server.id, KeyPassphrase);
    StepsEnd(between, ended, more);
    StepsWithin(began, between, ended, Writes(server), more);
  }

  /** Writing the second field leaves what the first one needs. */
  lemma FirstField(server: Server, password: Field, middle: World, now: World, plain: string -> string)
    requires FieldToSystem(server.password, password, server.id, Password, middle.entries, plain)
    requires Near(middle, now, Written(server.keyPass, server.id, KeyPassphrase))
    requires forall r <- Written(server.keyPass, server.id, KeyPassphrase) :: r in now.entries
    ensures FieldToSystem(server.password, password, server.id, Password, now.entries, plain)
  {
    var r := password.credential;
    if CredentialReference(server.id, Password) == CredentialReference(server.id, KeyPassphrase) {
      ReferencesInjective(server.id, Password, server.id, KeyPassphrase);
    }
    assert r !in Written(server.keyPass, server.id, KeyPassphrase) ==>
        Lookup(now.entries, r) == Lookup(middle.entries, r);
  }

  /** `now` is `field` with an obscured copy of what its reference holds. */
  ghost predicate FieldHydrated(field: Field, now: Field, entries: map<string, string>, plain: string -> string) {
    && now.credential == field.credential
    && if field.credential == "" then now.obscured == field.obscured
       else now.obscured != "" && Lookup(entries, field.credential) == Some(plain(now.obscured))
  }

  method HydrateField(store: Vault, field: Field) returns (r: Result<Field, CredentialError>)
    requires store.Valid()
    modifies store`faults
    ensures Explained(r, FieldDangling(field, store.world.entries), store.faults - old(store.faults))
    ensures store.faults >= old(store.faults)
    ensures r.Ok? ==> FieldHydrated(field, r.value, store.world.entries, store.plain)
    ensures r.Err? ==> !r.error.Rollback?
  {
    if field.credential == "" { return Ok(field); }
    var plaintext := store.Get(field.credential);
    if plaintext.Err? { return Err(plaintext.error); }
    var obscured := store.ObscureSecret(plaintext.value);
    r := if obscured.Ok? then Ok(field.(obscured := obscured.value)) else Err(obscured.error);
  }

  ghost predicate Hydrated(server: Server, candidate: Server, entries: map<string, string>, plain: string -> string) {
    && candidate.id == server.id
    && forall k :: FieldHydrated(FieldOf(server, k), FieldOf(candidate, k), entries, plain)
  }

  method HydrateServer(store: Vault, server: Server) returns (r: Result<Server, CredentialError>)
    requires store.Valid()
    modifies store`faults
    ensures Explained(r, Dangling(server, store.world.entries), store.faults - old(store.faults))
    ensures store.faults >= old(store.faults)
    ensures r.Ok? ==> Hydrated(server, r.value, store.world.entries, store.plain) && r.value.rest == server.rest
    ensures r.Err? ==> !r.error.Rollback?
  {
    assert FieldOf(server, Password) == server.password && FieldOf(server, KeyPassphrase) == server.keyPass;
    var password := HydrateField(store, server.password);
    if password.Err? { return Err(password.error); }
    var keyPass := HydrateField(store, server.keyPass);
    if keyPass.Err? { return Err(keyPass.error); }
    r := Ok(server.(password := password.value, keyPass := keyPass.value));
  }

  function ReferencesOf(server: Server): seq<string> {
    (if server.password.credential != "" then [server.password.credential] else [])
    + (if server.keyPass.credential != "" then [server.keyPass.credential] else [])
  }

  method PrepareServerToObscure(store: Vault, server: Server) returns (r: Result<Migration, CredentialError>)
    requires store.Valid()
    modifies store`faults
    ensures Explained(r, Dangling(server, store.world.entries), store.faults - old(store.faults))
    ensures store.faults >= old(store.faults)
    ensures r.Ok? ==> Hydrated(server, r.value.candidate, store.world.entries, store.plain)
    ensures r.Ok? ==> r.value.changes == [] && r.value.kind == Storage.Obscure && r.value.candidate.rest == server.rest
    ensures r.Err? ==> !r.error.Rollback?
  {
    var candidate := HydrateServer(store, server);
    r := if candidate.Err? then Err(candidate.error)
         else Ok(Migration(candidate.value, [], ReferencesOf(candidate.value), Storage.Obscure));
  }

  // ----- after the candidate was persisted and reloaded -----

  function FieldPersisted(staged: Field, persisted: Field): bool {
    staged.credential == persisted.credential && (staged.obscured == "" || staged.obscured == persisted.obscured)
  }

  function EnsurePersistedCandidate(m: Migration, persisted: Server, expected: Storage): Option<CredentialError> {
    if m.kind != expected || persisted.id != m.candidate.id then Some(Persistence("server"))
    else if !FieldPersisted(m.candidate.password, persisted.password) then Some(Persistence("password"))
    else if !FieldPersisted(m.candidate.keyPass, persisted.keyPass) then Some(Persistence("key passphrase"))
    else None
  }

  /** The final record, and the references that may be retired once it is persisted. */
  function Finalize(m: Migration, persisted: Server, target: Storage): Result<(Server, seq<string>), CredentialError> {
    match EnsurePersistedCandidate(m, persisted, target)
    case Some(error) => Err(error)
    case None =>
      if target == System then Ok((persisted, []))
      else
        Ok((persisted.(password := Retire(m.candidate.password, persisted.password),
                       keyPass := Retire(m.candidate.keyPass, persisted.keyPass)),
            ReferencesOf(m.candidate)))
  }

  function Retire(staged: Field, persisted: Field): Field {
    if staged.credential != "" then persisted.(credential := "") else persisted
  }
}
