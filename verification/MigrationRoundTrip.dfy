/** Turning E2EE on and off again, with the text that was there before. */
module MigrationRoundTrip {
  import opened Options
  import opened Encryption
  import opened Text
  import opened Catalog
  import opened CatalogModes
  import opened Migration
  import opened MigrationTheorems
  import opened NewUser

  ghost predicate PlainNames(k: Cipher, u: UserId, keys: map<Id, Key>, rows: seq<Row>) {
    forall r | r in rows :: r.id in keys ==> k.dec(u, keys[r.id].name) == Some(r.value)
  }

  // The payload is what the stored values decrypt to
  ghost predicate Plaintext(k: Cipher, db: Db, u: UserId, data: Dataset) {
    && CoversAll(db, u, data)
    && PlainNames(k, u, KeysOf(db.tags), data.tags)
    && PlainNames(k, u, db.groups, data.groups)
    && (forall r | r in data.categories :: r.id in db.categories
                                           ==> k.dec(u, db.categories[r.id].name) == Some(r.value))
    && (forall r | r in data.events :: r.id in db.events ==> k.dec(u, db.events[r.id].description) == Some(r.value))
  }

  ghost predicate NormalRows(a: Alphabet, rows: seq<Row>) {
    forall r | r in rows :: TitleCase(a, r.value) == r.value
  }

  ghost predicate NormalNames(a: Alphabet, data: Dataset) {
    NormalRows(a, data.categories) && NormalRows(a, data.tags) && NormalRows(a, data.groups)
  }

  // The row the disabling transaction writes for a row of the payload
  function BackRow(env: Env, u: UserId, r: Row): Row {
    Row(r.id, env.cipher.enc(u, TitleCase(env.alphabet, r.value)), None)
  }

  function BackRows(env: Env, u: UserId, rows: seq<Row>): seq<Row> {
    AtRestRows(env.cipher, u, MapRows(rows, r => NormalRow(env.alphabet, r)))
  }

  lemma {:induction false} RowOfMapped(rows: seq<Row>, mapped: seq<Row>, f: Row -> Row, id: Id)
    requires |mapped| == |rows| && forall i | 0 <= i < |rows| :: mapped[i] == f(rows[i]) && f(rows[i]).id == rows[i].id
    ensures RowOf(mapped, id) == if RowOf(rows, id).Some? then Some(f(RowOf(rows, id).value)) else None
    decreases |rows|
  {
    if rows != [] {
      var n := |rows| - 1;
      RowOfMapped(rows[..n], mapped[..n], f, id);
    }
  }

  lemma RowOfBack(env: Env, u: UserId, rows: seq<Row>, id: Id)
    ensures RowOf(BackRows(env, u, rows), id) == if RowOf(rows, id).Some?
            then Some(BackRow(env, u, RowOf(rows, id).value)) else None
  {
    RowOfMapped(rows, BackRows(env, u, rows), r => BackRow(env, u, r), id);
  }

  // One row comes back as it was exactly when its name is in normal form
  lemma NameComesBack(env: Env, u: UserId, stored: string, r: Row)
    requires Sound(env.cipher) && AtRest(env.cipher, u, stored) && env.cipher.dec(u, stored) == Some(r.value)
    ensures BackRow(env, u, r).value == stored <==> TitleCase(env.alphabet, r.value) == r.value
  {
    var text := TitleCase(env.alphabet, r.value);
    hide TitleCase;
    if env.cipher.enc(u, text) == env.cipher.enc(u, r.value) {
      EncIsInjective(env.cipher, u, text, r.value);
    }
  }

  lemma KeysComeBack(env: Env, u: UserId, keys: map<Id, Key>, mine: set<Id>, sealed: seq<Row>, plain: seq<Row>)
    requires Sound(env.cipher) && Covers(sealed, mine) && Covers(plain, mine) && mine <= keys.Keys
    requires forall x | x in mine :: KeyMode(env.cipher, false, u, keys[x])
    requires PlainNames(env.cipher, u, keys, plain)
    ensures RewriteKeys(RewriteKeys(keys, sealed), BackRows(env, u, plain)) == keys <==> NormalRows(env.alphabet, plain)
  {
    var back := RewriteKeys(RewriteKeys(keys, sealed), BackRows(env, u, plain));
    forall x | x in keys
      ensures x !in mine ==> back[x] == keys[x]
      ensures x in mine ==> RowOf(plain, x).Some? && RowOf(plain, x).value in plain
                            && (back[x] == keys[x] <==> TitleCase(env.alphabet, RowOf(plain, x).value.value)
                                                        == RowOf(plain, x).value.value)
    {
      KeyComesBack(env, u, keys, mine, sealed, plain, x);
    }
    forall r | r in plain
      ensures r.id in mine && RowOf(plain, r.id) == Some(r)
    {
      RowOfRow(plain, r);
    }
    hide TitleCase, RewriteKeys, BackRows, Covers, PlainNames, KeyMode, RowOf, Sound;
    if back == keys {
      assert NormalRows(env.alphabet, plain);
    }
    if NormalRows(env.alphabet, plain) {
      assert back.Keys == keys.Keys by { RewrittenKeys(keys, sealed); RewrittenKeys(RewriteKeys(keys, sealed),
          BackRows(env, u, plain)); }
      assert forall x | x in keys :: back[x] == keys[x];
    }
  }

  lemma RewrittenKeys(keys: map<Id, Key>, rows: seq<Row>)
    ensures RewriteKeys(keys, rows).Keys == keys.Keys
  {
  }

  lemma KeyComesBack(env: Env, u: UserId, keys: map<Id, Key>, mine: set<Id>, sealed: seq<Row>, plain: seq<Row>, x: Id)
    requires Sound(env.cipher) && Covers(sealed, mine) && Covers(plain, mine) && mine <= keys.Keys && x in keys
    requires x in mine ==> KeyMode(env.cipher, false, u, keys[x])
    requires PlainNames(env.cipher, u, keys, plain)
    ensures var back := RewriteKeys(RewriteKeys(keys, sealed), BackRows(env, u, plain));
            && (x !in mine ==> back[x] == keys[x])
            && (x in mine ==> RowOf(plain, x).Some? && RowOf(plain, x).value in plain
                              && (back[x] == keys[x] <==> TitleCase(env.alphabet, RowOf(plain, x).value.value)
                                                          == RowOf(plain, x).value.value))
  {
    CoveredRow(sealed, mine, x);
    CoveredRow(plain, mine, x);
    RowOfIsNamed(plain, x);
    RowOfBack(env, u, plain, x);
    if x in mine {
      NameComesBack(env, u, keys[x].name, RowOf(plain, x).value);
    }
    hide TitleCase, BackRows, Covers, RowOf, Sound, Stored;
  }

  lemma CategoryComesBack(env: Env, u: UserId, categories: map<Id, Category>, sealed: seq<Row>, plain: seq<Row>, c: Id)
    requires Sound(env.cipher) && Covers(sealed, CategoriesOf(categories, u))
             && Covers(plain, CategoriesOf(categories, u)) && c in categories
    requires categories[c].user == u ==> AtRest(env.cipher, u, categories[c].name)
    requires forall r | r in plain :: r.id in categories ==> env.cipher.dec(u, categories[r.id].name) == Some(r.value)
    ensures var back := RewriteCategories(RewriteCategories(categories, sealed), BackRows(env, u, plain));
            && (categories[c].user != u ==> back[c] == categories[c])
            && (categories[c].user == u ==>
                  RowOf(plain, c).Some? && RowOf(plain, c).value in plain
                  && (back[c] == categories[c]
                      <==> TitleCase(env.alphabet, RowOf(plain, c).value.value) == RowOf(plain, c).value.value))
  {
    CoveredRow(sealed, CategoriesOf(categories, u), c);
    CoveredRow(plain, CategoriesOf(categories, u), c);
    RowOfIsNamed(plain, c);
    RowOfBack(env, u, plain, c);
    if categories[c].user == u {
      NameComesBack(env, u, categories[c].name, RowOf(plain, c).value);
    }
    hide TitleCase, BackRows, Covers, RowOf, Sound, AtRest;
  }

  lemma SameExactlyWhenNormal(a: Alphabet, back: map<Id, Category>, categories: map<Id, Category>, mine: set<Id>,
                              plain: seq<Row>)
    requires back.Keys == categories.Keys && mine <= categories.Keys
    requires forall c | c in categories && c !in mine :: back[c] == categories[c]
    requires forall c | c in mine :: RowOf(plain, c).Some? && RowOf(plain, c).value in plain
    requires forall c | c in mine ::
               back[c] == categories[c] <==> TitleCase(a, RowOf(plain, c).value.value) == RowOf(plain, c).value.value
    requires forall r | r in plain :: r.id in mine && RowOf(plain, r.id) == Some(r)
    ensures back == categories <==> NormalRows(a, plain)
  {
    hide TitleCase, RowOf;
    if NormalRows(a, plain) {
      assert forall c | c in categories :: back[c] == categories[c];
    }
  }

  lemma CategoriesComeBack(env: Env, u: UserId, categories: map<Id, Category>, sealed: seq<Row>, plain: seq<Row>)
    requires Sound(env.cipher) && Covers(sealed, CategoriesOf(categories, u))
             && Covers(plain, CategoriesOf(categories, u))
    requires forall c | c in categories && categories[c].user == u :: AtRest(env.cipher, u, categories[c].name)
    requires forall r | r in plain :: r.id in categories ==> env.cipher.dec(u, categories[r.id].name) == Some(r.value)
    ensures RewriteCategories(RewriteCategories(categories, sealed), BackRows(env, u, plain)) == categories
            <==> NormalRows(env.alphabet, plain)
  {
    var mine := CategoriesOf(categories, u);
    var back := RewriteCategories(RewriteCategories(categories, sealed), BackRows(env, u, plain));
    assert back.Keys == categories.Keys;
    hide TitleCase, BackRows, Covers, RowOf, Sound, AtRest, RewriteCategories;
    forall c | c in categories
      ensures c !in mine ==> back[c] == categories[c]
      ensures c in mine ==> RowOf(plain, c).Some? && RowOf(plain, c).value in plain
                            && (back[c] == categories[c] <==> TitleCase(env.alphabet, RowOf(plain, c).value.value)
                                                              == RowOf(plain, c).value.value)
    {
      CategoryComesBack(env, u, categories, sealed, plain, c);
    }
    forall r | r in plain
      ensures r.id in mine && RowOf(plain, r.id) == Some(r)
    {
      RowOfRow(plain, r);
    }
    hide CategoriesOf, NormalRows;
    SameExactlyWhenNormal(env.alphabet, back, categories, mine, plain);
  }

  lemma EventsComeBack(env: Env, u: UserId, events: map<Id, Event>, sealed: seq<Row>, plain: seq<Row>)
    requires Sound(env.cipher) && Covers(sealed, EventsOf(events, u)) && Covers(plain, EventsOf(events, u))
    requires forall e | e in events && events[e].user == u :: AtRest(env.cipher, u, events[e].description)
    requires forall r | r in plain :: r.id in events ==> env.cipher.dec(u, events[r.id].description) == Some(r.value)
    ensures RewriteEvents(RewriteEvents(events, sealed), AtRestRows(env.cipher, u, plain)) == events
  {
    var mine := EventsOf(events, u);
    var back := RewriteEvents(RewriteEvents(events, sealed), AtRestRows(env.cipher, u, plain));
    forall e | e in events
      ensures back[e] == events[e]
    {
      CoveredRow(sealed, mine, e);
      CoveredRow(plain, mine, e);
      RowOfIsNamed(plain, e);
      RowOfMapped(plain, AtRestRows(env.cipher, u, plain), (r: Row) => r.(value := env.cipher.enc(u, r.value)), e);
      hide AtRestRows, Covers, RowOf, Sound;
    }
    assert back.Keys == events.Keys;
  }

  lemma SameRowsCovered(db: Db, u: UserId, sealed: Dataset, plain: Dataset, users: map<UserId, User>)
    requires CoversAll(db, u, plain)
    ensures CoversAll(Rewrite(db, sealed).(users := users), u, plain)
  {
    var mid := Rewrite(db, sealed).(users := users);
    RewritesRename(db, sealed);
    assert forall g | g in db.groups :: g in mid.groups && mid.groups[g].category == db.groups[g].category;
    assert forall e | e in db.events :: e in mid.events && mid.events[e].user == db.events[e].user;
    assert mid.events.Keys == db.events.Keys && mid.groups.Keys == db.groups.Keys;
    assert mid.categories == RewriteCategories(db.categories, sealed.categories)
        && mid.tags == RewriteTags(db.tags, sealed.tags);
    hide RewriteCategories, RewriteTags, RewriteKeys, RewriteEvents, RowOf, Covers, Rewrite;
    assert CategoriesOf(mid.categories, u) == CategoriesOf(db.categories, u);
    assert TagsOf(mid, u) == TagsOf(db, u);
    assert GroupsOf(mid, u) == GroupsOf(db, u);
    assert EventsOf(mid.events, u) == EventsOf(db.events, u);
  }

  lemma BackData(env: Env, u: UserId, plain: Dataset)
    ensures AtRestData(env.cipher, u, Normal(env.alphabet, plain))
            == Dataset(BackRows(env, u, plain.categories), BackRows(env, u, plain.tags), BackRows(env, u, plain.groups),
                       AtRestRows(env.cipher, u, plain.events))
  {
  }

  lemma EqualByKeys(back: map<Id, Tag>, tags: map<Id, Tag>)
    requires Retitled(back, tags)
    ensures back == tags <==> KeysOf(back) == KeysOf(tags)
  {
    if KeysOf(back) == KeysOf(tags) {
      forall t | t in tags
        ensures back[t] == tags[t]
      {
        assert KeysOf(back)[t] == KeysOf(tags)[t];
      }
    }
  }

  lemma RetitledTags(tags: map<Id, Tag>, rows: seq<Row>)
    ensures Retitled(RewriteTags(tags, rows), tags)
  {
    hide RowOf;
  }

  lemma RetitledTwice(a: map<Id, Tag>, b: map<Id, Tag>, c: map<Id, Tag>)
    requires Retitled(a, b) && Retitled(b, c)
    ensures Retitled(a, c)
  {
  }

  lemma TagsComeBack(env: Env, u: UserId, tags: map<Id, Tag>, mine: set<Id>, sealed: seq<Row>, plain: seq<Row>)
    requires Sound(env.cipher) && Covers(sealed, mine) && Covers(plain, mine) && mine <= tags.Keys
    requires forall x | x in mine :: KeyMode(env.cipher, false, u, tags[x].key)
    requires PlainNames(env.cipher, u, KeysOf(tags), plain)
    ensures RewriteTags(RewriteTags(tags, sealed), BackRows(env, u, plain)) == tags <==> NormalRows(env.alphabet, plain)
  {
    hide RewriteTags, RewriteKeys, BackRows, NormalRows, PlainNames, Covers, Sound, KeyMode, Retitled;
    var mid := RewriteTags(tags, sealed);
    var back := RewriteTags(mid, BackRows(env, u, plain));
    KeysComeBack(env, u, KeysOf(tags), mine, sealed, plain);
    TagsByKeys(tags, sealed);
    TagsByKeys(mid, BackRows(env, u, plain));
    RetitledTags(tags, sealed);
    RetitledTags(mid, BackRows(env, u, plain));
    RetitledTwice(back, mid, tags);
    EqualByKeys(back, tags);
  }

  lemma RewriteComesBack(env: Env, db: Db, u: UserId, sealed: Dataset, plain: Dataset)
    requires Sound(env.cipher) && Modes(env.cipher, db) && !E2ee(db, u)
    requires CoversAll(db, u, sealed) && Plaintext(env.cipher, db, u, plain)
    ensures Rewrite(Rewrite(db, sealed), AtRestData(env.cipher, u, Normal(env.alphabet, plain))) == db
            <==> NormalNames(env.alphabet, plain)
  {
    AtRestOfMine(env.cipher, db, u);
    BackData(env, u, plain);
    assert TagsOf(db, u) <= db.tags.Keys && GroupsOf(db, u) <= db.groups.Keys;
    hide Sound, Modes, Covers, PlainNames, NormalRows, KeyMode, AtRest, RewriteTags, RewriteKeys, RewriteCategories,
      RewriteEvents, BackRows, AtRestRows, Normal, AtRestData, TagsOf, GroupsOf, CategoriesOf, EventsOf;
    TagsComeBack(env, u, db.tags, TagsOf(db, u), sealed.tags, plain.tags);
    KeysComeBack(env, u, db.groups, GroupsOf(db, u), sealed.groups, plain.groups);
    CategoriesComeBack(env, u, db.categories, sealed.categories, plain.categories);
    EventsComeBack(env, u, db.events, sealed.events, plain.events);
  }

  lemma DataCovers(env: Env, db: Db, u: UserId, plain: Dataset)
    requires CoversAll(db, u, plain)
    ensures CoversAll(db, u, AtRestData(env.cipher, u, Normal(env.alphabet, plain)))
  {
    var data := AtRestData(env.cipher, u, Normal(env.alphabet, plain));
    hide TitleCase, Covers;
    SameIdsCover(plain.categories, data.categories, CategoriesOf(db.categories, u));
    SameIdsCover(plain.tags, data.tags, TagsOf(db, u));
    SameIdsCover(plain.groups, data.groups, GroupsOf(db, u));
    SameIdsCover(plain.events, data.events, EventsOf(db.events, u));
  }

  lemma RewriteIgnoresUsers(db: Db, users: map<UserId, User>, data: Dataset)
    ensures Rewrite(db.(users := users), data) == Rewrite(db, data).(users := users)
  {
  }

  lemma RewriteKeepsUsers(db: Db, data: Dataset)
    ensures Rewrite(db, data).users == db.users
  {
  }

  lemma SwapTwice(db: Db, u: UserId, keyCheck: Option<string>, sealed: Dataset, data: Dataset)
    requires TagNamesUnique(db.tags) && KeysUnique(db.groups)
    requires u in db.users && db.users[u] == User(false, None)
    requires CoversAll(Rewrite(db, sealed).(users := db.users[u := User(true, keyCheck)]), u, data)
    ensures Swap(Rewrite(db, sealed).(users := db.users[u := User(true, keyCheck)]), u, false, None, data)
            == (db, Done(u))
            <==> Rewrite(Rewrite(db, sealed), data) == db
  {
    hide CoversAll, Rewrite, TagNamesUnique, KeysUnique;
    var users := db.users[u := User(true, keyCheck)];
    RewriteIgnoresUsers(Rewrite(db, sealed), users, data);
    RewriteKeepsUsers(db, sealed);
    RewriteKeepsUsers(Rewrite(db, sealed), data);
    assert users[u := User(false, None)] == db.users;
    var twice := Rewrite(Rewrite(db, sealed), data);
    assert twice.(users := db.users) == twice;
  }

  ghost predicate NoneBlank(a: Alphabet, data: Dataset) {
    NoBlanks(a, data.categories) && NoBlanks(a, data.tags) && NoBlanks(a, data.groups)
  }

  lemma NonBlanksComeBack(env: Env, db: Db, u: UserId, keyCheck: string, sealed: Dataset, plain: Dataset)
    requires Sound(env.cipher) && Modes(env.cipher, db) && Aggregate(db) && u in db.users && !E2ee(db, u)
    requires Enable(db, u, keyCheck, sealed).1.Done? && Plaintext(env.cipher, db, u, plain)
    requires NoneBlank(env.alphabet, plain)
    ensures Disable(env, Enable(db, u, keyCheck, sealed).0, u, plain) == (db, Done(u))
            <==> NormalNames(env.alphabet, plain)
  {
    assert db.users[u] == User(false, None);
    hide Sound, UserModes, CategoryModes, TagModes, GroupModes, EventModes, CategoriesOk, DefaultsOk, TagsOk,
      GroupsOk, MembersOk, EventsOk, LinksOk, TagNamesUnique, KeysUnique, Covers, ShapesOk, NoBlanks, NormalNames,
      AtRestData, Normal, Rewrite, PlainNames;
    RewriteComesBack(env, db, u, sealed, plain);
    var users := db.users[u := User(true, Some(keyCheck))];
    var mid := Rewrite(db, sealed).(users := users);
    RewriteKeepsUsers(db, sealed);
    assert Enable(db, u, keyCheck, sealed).0 == mid;
    var data := AtRestData(env.cipher, u, Normal(env.alphabet, plain));
    SameRowsCovered(db, u, sealed, plain, users);
    DataCovers(env, mid, u, plain);
    SwapTwice(db, u, Some(keyCheck), sealed, data);
  }

  // Enabling and then disabling with what was there in the clear restores every row exactly
  // when all names were in normal form and none is blank. Otherwise the names come back
  // normalised, or the way back is refused: because two of them normalise to the same, or
  // because a name is blank, which creating it did not mind
  lemma ThereAndBack(env: Env, db: Db, u: UserId, keyCheck: string, sealed: Dataset, plain: Dataset)
    requires Sound(env.cipher) && Modes(env.cipher, db) && Aggregate(db) && u in db.users && !E2ee(db, u)
    requires Enable(db, u, keyCheck, sealed).1.Done? && Plaintext(env.cipher, db, u, plain)
    ensures Disable(env, Enable(db, u, keyCheck, sealed).0, u, plain) == (db, Done(u))
            <==> NormalNames(env.alphabet, plain) && NoneBlank(env.alphabet, plain)
  {
    hide Sound, Modes, Aggregate, Enable, NormalNames, Plaintext, Swap, NoBlanks;
    if NoneBlank(env.alphabet, plain) {
      NonBlanksComeBack(env, db, u, keyCheck, sealed, plain);
    } else {
      assert Disable(env, Enable(db, u, keyCheck, sealed).0, u, plain).1 == BadRequest;
    }
  }

  function Spaced(env: Env): (Db, Outcome) {
    UpdateCategory(env, Registered(env), 0, 1, " ")
  }

  const SPACED_NAMES := ThreeNames("Dates", " ", "Others")

  lemma SpacedNames(env: Env)
    requires Sound(env.cipher) && env.alphabet == ASCII
    ensures Spaced(env).1 == Done(1) && JustSeeds(Spaced(env).0) && !E2ee(Spaced(env).0, 0)
    ensures var k, categories := env.cipher, Spaced(env).0.categories;
            k.dec(0, categories[0].name) == Some("Dates") && k.dec(0, categories[1].name) == Some(" ")
            && k.dec(0, categories[2].name) == Some("Others")
  {
    RegisteredHasSeeds(env);
    assert TitleCase(ASCII, " ") == " ";
    hide TitleCase;
  }

  lemma SpacedIsRenamed(env: Env)
    requires Sound(env.cipher) && env.alphabet == ASCII
    ensures Spaced(env).1 == Done(1) && JustSeeds(Spaced(env).0) && !E2ee(Spaced(env).0, 0)
    ensures Plaintext(env.cipher, Spaced(env).0, 0, SPACED_NAMES)
  {
    SpacedNames(env);
    SeedsCovered(Spaced(env).0, "Dates", " ", "Others");
    hide CoversAll, Spaced;
  }

  lemma CapitalisedIsNormal(s: string)
    requires forall i | 0 <= i < |s| :: if i == 0 then 'A' <= s[i] <= 'Z' else 'a' <= s[i] <= 'z'
    ensures TitleCase(ASCII, s) == s
  {
  }

  lemma SpacedIsNormal()
    ensures NormalNames(ASCII, SPACED_NAMES) && IsBlank(ASCII, " ")
  {
    assert TitleCase(ASCII, " ") == " ";
    hide TitleCase;
    CapitalisedIsNormal("Dates");
    CapitalisedIsNormal("Others");
    var rows := SPACED_NAMES.categories;
    forall r | r in rows
      ensures TitleCase(ASCII, r.value) == r.value
    {
      assert r == rows[0] || r == rows[1] || r == rows[2];
    }
  }

  // A category of one space: the name is accepted, in normal form and encrypted, and stands in
  // the way of turning E2EE off again
  lemma BlankNameDoesNotComeBack(env: Env, check: string, blob: string)
    requires Sound(env.cipher) && env.alphabet == ASCII && IsKeyCheck(check) && IsBlob(blob)
    ensures var (db, renamed) := UpdateCategory(env, Registered(env), 0, 1, " ");
            var (on, enabled) := Enable(db, 0, check, OneName(blob));
            && renamed == Done(1) && enabled == Done(0)
            && Plaintext(env.cipher, db, 0, SPACED_NAMES) && NormalNames(ASCII, SPACED_NAMES)
            && Disable(env, on, 0, SPACED_NAMES) == (on, BadRequest)
  {
    SpacedIsRenamed(env);
    SpacedIsNormal();
    var rows := SPACED_NAMES.categories;
    assert rows[1] in rows && rows[1].value == " ";
    assert ShapesOk(OneName(blob));
    hide Plaintext, NormalNames, Registered, UpdateCategory, JustSeeds, IsBlank, ShapesOk, IsBlob, IsKeyCheck, Swap,
      ThreeNames;
    SeedsMigrate(Spaced(env).0, true, Some(check), blob);
  }
}
