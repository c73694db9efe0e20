/** A user who has only just registered turns end-to-end encryption on, and off again. */
module NewUser {
  import opened Options
  import opened Encryption
  import opened Text
  import opened Catalog
  import opened CatalogInvariant
  import opened CatalogModes
  import opened CatalogRuns
  import opened Migration
  import opened MigrationTheorems

  function ThreeNames(dates: string, persons: string, others: string): Dataset {
    Dataset([Row(0, dates, None), Row(1, persons, None), Row(2, others, None)], [], [], [])
  }

  function OneName(value: string): Dataset {
    ThreeNames(value, value, value)
  }

  // User 0 registers, and turns E2EE on, and off again
  function Registered(env: Env): Db {
    Catalog.Register(env, EMPTY, 0, 0, 1, 2).0
  }

  function TurnedOn(env: Env, check: string, blob: string): (Db, Outcome) {
    Migration.Enable(Registered(env), 0, check, OneName(blob))
  }

  function TurnedOff(env: Env, check: string, blob: string, name: string): (Db, Outcome) {
    Migration.Disable(env, TurnedOn(env, check, blob).0, 0, OneName(name))
  }

  predicate JustSeeds(db: Db) {
    && db.categories.Keys == {0, 1, 2} && db.tags == map[] && db.groups == map[] && db.events == map[]
    && 0 in db.users && forall i | i in db.categories :: db.categories[i].user == 0
  }

  ghost predicate InOrder(env: Env, db: Db) {
    Aggregate(db) && Modes(env.cipher, db)
  }

  lemma SeedsCovered(db: Db, dates: string, persons: string, others: string)
    requires JustSeeds(db)
    ensures CoversAll(db, 0, ThreeNames(dates, persons, others))
  {
    var rows := ThreeNames(dates, persons, others).categories;
    assert CategoriesOf(db.categories, 0) == {0, 1, 2};
    assert rows[0] in rows && rows[1] in rows && rows[2] in rows;
    assert TagsOf(db, 0) == {} && GroupsOf(db, 0) == {} && EventsOf(db.events, 0) == {};
  }

  lemma SeedsMigrate(db: Db, enable: bool, keyCheck: Option<string>, value: string)
    requires JustSeeds(db) && E2ee(db, 0) != enable
    ensures var (next, outcome) := Swap(db, 0, enable, keyCheck, OneName(value));
            outcome == Done(0) && JustSeeds(next) && E2ee(next, 0) == enable
  {
    SeedsCovered(db, value, value, value);
    hide CoversAll;
  }

  lemma RegisteredHasSeeds(env: Env)
    ensures JustSeeds(Registered(env)) && !E2ee(Registered(env), 0)
  {
  }

  lemma RegisteredInOrder(env: Env)
    requires Sound(env.cipher)
    ensures InOrder(env, Registered(env))
  {
    EmptyIsConsistent(env.cipher);
    assert NewIds(EMPTY, 0, 1, 2);
    hide Catalog.Register, Aggregate, Modes, Sound, NewIds;
    RegisterKeeps(env, EMPTY, 0, 0, 1, 2);
    RegistrationKeepsModes(env, EMPTY, 0, 0, 1, 2);
  }

  // Turning E2EE on or off goes through
  lemma SeedsMigrateInOrder(env: Env, db: Db, enable: bool, keyCheck: Option<string>, value: string)
    requires JustSeeds(db) && E2ee(db, 0) != enable && InOrder(env, db)
    requires DataMode(env.cipher, enable, 0, OneName(value))
    requires if enable then keyCheck.Some? && IsKeyCheck(keyCheck.value) else keyCheck.None?
    ensures var (next, outcome) := Swap(db, 0, enable, keyCheck, OneName(value));
            outcome == Done(0) && JustSeeds(next) && E2ee(next, 0) == enable && InOrder(env, next)
  {
    SeedsMigrate(db, enable, keyCheck, value);
    hide Aggregate, Modes, IsKeyCheck, Swap, DataMode, OneName;
    SwapKeeps(db, 0, enable, keyCheck, OneName(value));
    SwapKeepsModes(env.cipher, db, 0, enable, keyCheck, OneName(value));
  }

  lemma TurnedOnInOrder(env: Env, check: string, blob: string)
    requires Sound(env.cipher) && IsKeyCheck(check) && IsBlob(blob)
    ensures var (db, outcome) := TurnedOn(env, check, blob);
            outcome == Done(0) && JustSeeds(db) && E2ee(db, 0) && InOrder(env, db)
  {
    RegisteredHasSeeds(env);
    RegisteredInOrder(env);
    assert ShapesOk(OneName(blob));
    EnableDataMode(env.cipher, 0, OneName(blob));
    hide InOrder, JustSeeds, Sound, IsBlob, IsKeyCheck, Swap, Registered, DataMode, OneName, ShapesOk;
    SeedsMigrateInOrder(env, Registered(env), true, Some(check), blob);
  }

  lemma OneNameAtRest(env: Env, name: string)
    ensures AtRestData(env.cipher, 0, Normal(env.alphabet, OneName(name)))
            == OneName(env.cipher.enc(0, TitleCase(env.alphabet, name)))
  {
    hide TitleCase;
  }

  lemma OneNameDisables(env: Env, db: Db, name: string)
    requires !IsBlank(env.alphabet, name)
    ensures Migration.Disable(env, db, 0, OneName(name))
            == Swap(db, 0, false, None, OneName(env.cipher.enc(0, TitleCase(env.alphabet, name))))
  {
    OneNameAtRest(env, name);
    hide Swap, AtRestData, Normal, IsBlank, TitleCase;
  }

  lemma TurnedOffInOrder(env: Env, check: string, blob: string, name: string)
    requires Sound(env.cipher) && IsKeyCheck(check) && IsBlob(blob) && !IsBlank(env.alphabet, name)
    ensures var (db, outcome) := TurnedOff(env, check, blob, name);
            outcome == Done(0) && JustSeeds(db) && !E2ee(db, 0) && InOrder(env, db)
  {
    TurnedOnInOrder(env, check, blob);
    hide InOrder, JustSeeds, Sound, IsBlob, IsKeyCheck, Swap, TurnedOn, IsBlank, TitleCase, DataMode, AtRestData,
      Normal,
      Migration.Disable, OneName;
    DisableDataMode(env, 0, OneName(name));
    OneNameAtRest(env, name);
    OneNameDisables(env, TurnedOn(env, check, blob).0, name);
    SeedsMigrateInOrder(env, TurnedOn(env, check, blob).0, false, None,
        env.cipher.enc(0, TitleCase(env.alphabet, name)));
  }

  // Such values there are
  lemma SomeBlobAndCheck()
    ensures IsBlob(PREFIX + PAD) && exists check :: IsKeyCheck(check)
  {
    NothingToSkip(PAD);
    PaddedIsCiphertext("");
    assert PAD + "" == PAD;
    assert (PREFIX + PAD)[|PREFIX|..] == PAD;
    assert IsKeyCheck(seq(KEY_CHECK_LENGTH, i => '0'));
  }
}
