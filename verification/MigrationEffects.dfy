/** What turning E2EE on and off answers, and what it stores, told from the payload alone. */
module MigrationEffects {
  import opened Options
  import opened Encryption
  import opened Text
  import opened Catalog
  import opened Migration
  import opened MigrationTheorems
  import opened MigrationRoundTrip
  import opened StoredValues

  // ---- The payload ----

  // The rows name the ids, each once and no other
  ghost predicate Enumerates(rows: seq<Row>, ids: set<Id>) {
    && (forall i, j | 0 <= i < j < |rows| :: rows[i].id != rows[j].id)
    && (forall r | r in rows :: r.id in ids)
    && (forall id | id in ids :: exists r :: r in rows && r.id == id)
  }

  // A tag or a tag group is its category's owner's
  predicate IsKeyOf(db: Db, u: UserId, key: Key) {
    key.category in db.categories && db.categories[key.category].user == u
  }

  function KeysNamed(db: Db, u: UserId, keys: map<Id, Key>): (named: set<Id>)
    ensures forall k :: k in named <==> k in keys && IsKeyOf(db, u, keys[k])
  {
    set k | k in keys && IsKeyOf(db, u, keys[k])
  }

  ghost predicate NamesAll(db: Db, u: UserId, data: Dataset) {
    && Enumerates(data.categories, set c | c in db.categories && db.categories[c].user == u)
    && Enumerates(data.tags, KeysNamed(db, u, KeysOf(db.tags)))
    && Enumerates(data.groups, KeysNamed(db, u, db.groups))
    && Enumerates(data.events, set e | e in db.events && db.events[e].user == u)
  }

  ghost predicate Encrypted(rows: seq<Row>, indexed: bool, mayBeEmpty: bool) {
    forall r | r in rows :: (IsBlob(r.value) || (mayBeEmpty && r.value == ""))
                            && (indexed ==> r.index.Some? && IsIndex(r.index.value))
  }

  ghost predicate NotBlank(a: Alphabet, rows: seq<Row>) {
    forall r | r in rows :: exists c | c in r.value :: !a.isSpace(c)
  }

  // ---- What it leaves ----

  predicate Unnamed(rows: seq<Row>, id: Id) {
    forall r | r in rows :: r.id != id
  }

  ghost predicate CategoriesMigrated(env: Env, on: bool, u: UserId, before: map<Id, Category>,
                                     after: map<Id, Category>, rows: seq<Row>) {
    && after.Keys == before.Keys
    && (forall r | r in rows && r.id in before ::
          after[r.id] == before[r.id].(name := after[r.id].name) && SaysName(env, on, u, after[r.id].name, r.value))
    && (forall c | c in before && Unnamed(rows, c) :: after[c] == before[c])
  }

  ghost predicate KeyMigrated(env: Env, on: bool, u: UserId, before: Key, after: Key, r: Row) {
    && after.category == before.category && SaysName(env, on, u, after.name, r.value)
    && KeepsIndex(on, after.index, r.index)
  }

  ghost predicate TagsMigrated(env: Env, on: bool, u: UserId, before: map<Id, Tag>, after: map<Id, Tag>,
                               rows: seq<Row>) {
    && after.Keys == before.Keys
    && (forall t | t in before :: after[t].parent == before[t].parent)
    && (forall r | r in rows && r.id in before :: KeyMigrated(env, on, u, before[r.id].key, after[r.id].key, r))
    && (forall t | t in before && Unnamed(rows, t) :: after[t] == before[t])
  }

  ghost predicate GroupsMigrated(env: Env, on: bool, u: UserId, before: map<Id, Key>, after: map<Id, Key>,
                                 rows: seq<Row>) {
    && after.Keys == before.Keys
    && (forall r | r in rows && r.id in before :: KeyMigrated(env, on, u, before[r.id], after[r.id], r))
    && (forall g | g in before && Unnamed(rows, g) :: after[g] == before[g])
  }

  ghost predicate EventsMigrated(env: Env, on: bool, u: UserId, before: map<Id, Event>, after: map<Id, Event>,
                                 rows: seq<Row>) {
    && after.Keys == before.Keys
    && (forall r | r in rows && r.id in before ::
          && after[r.id] == before[r.id].(description := after[r.id].description)
          && SaysText(env, on, u, after[r.id].description, r.value))
    && (forall e | e in before && Unnamed(rows, e) :: after[e] == before[e])
  }

  // Each row of the payload stands as it was sent, every other row, membership and link is as it
  // was, and the flag is as asked
  ghost predicate Migrated(env: Env, db: Db, next: Db, u: UserId, on: bool, check: Option<string>, data: Dataset) {
    && next.users == db.users[u := User(on, check)] && next.members == db.members && next.links == db.links
    && CategoriesMigrated(env, on, u, db.categories, next.categories, data.categories)
    && TagsMigrated(env, on, u, db.tags, next.tags, data.tags)
    && GroupsMigrated(env, on, u, db.groups, next.groups, data.groups)
    && EventsMigrated(env, on, u, db.events, next.events, data.events)
  }

  // ---- Proof ----

  // How a row is stored: as it was sent, or at rest
  function StoredName(env: Env, on: bool, u: UserId, r: Row): Row {
    if on then r else BackRow(env, u, r)
  }

  function StoredText(env: Env, on: bool, u: UserId, r: Row): Row {
    if on then r else r.(value := env.cipher.enc(u, r.value))
  }

  ghost predicate StoredFrom(sent: seq<Row>, stored: seq<Row>, f: Row -> Row) {
    && NoDuplicates(sent)
    && forall id :: RowOf(stored, id) == if RowOf(sent, id).Some? then Some(f(RowOf(sent, id).value)) else None
  }

  lemma NamesStored(env: Env, on: bool, u: UserId, sent: seq<Row>)
    requires NoDuplicates(sent)
    ensures StoredFrom(sent, if on then sent else BackRows(env, u, sent), (r: Row) => StoredName(env, on, u, r))
  {
    var f := (r: Row) => StoredName(env, on, u, r);
    forall id
      ensures RowOf(if on then sent else BackRows(env, u, sent), id)
              == if RowOf(sent, id).Some? then Some(f(RowOf(sent, id).value)) else None
    {
      RowOfBack(env, u, sent, id);
    }
  }

  lemma TextsStored(env: Env, on: bool, u: UserId, sent: seq<Row>)
    requires NoDuplicates(sent)
    ensures StoredFrom(sent, if on then sent else AtRestRows(env.cipher, u, sent),
                (r: Row) => StoredText(env, on, u, r))
  {
    var f := (r: Row) => StoredText(env, on, u, r);
    forall id
      ensures RowOf(if on then sent else AtRestRows(env.cipher, u, sent), id)
              == if RowOf(sent, id).Some? then Some(f(RowOf(sent, id).value)) else None
    {
      RowOfMapped(sent, AtRestRows(env.cipher, u, sent), (r: Row) => r.(value := env.cipher.enc(u, r.value)), id);
    }
  }

  lemma NameIsSaid(env: Env, on: bool, u: UserId, r: Row, name: string)
    requires Sound(env.cipher)
    ensures SaysName(env, on, u, name, r.value) <==> name == StoredName(env, on, u, r).value
    ensures KeepsIndex(on, StoredName(env, on, u, r).index, r.index)
  {
    EncSays(env, u, r.value);
    hide TitleCase, AtRest;
    if SaysName(env, on, u, name, r.value) {
      SayingIsOne(env, on, u, name, StoredName(env, on, u, r).value, r.value);
    }
  }

  // A row of the payload is what the payload has for its id, and an id without a row is unnamed
  lemma RowsById(rows: seq<Row>)
    requires NoDuplicates(rows)
    ensures forall r | r in rows :: RowOf(rows, r.id) == Some(r)
    ensures forall id :: RowOf(rows, id).None? <==> Unnamed(rows, id)
    ensures forall id | RowOf(rows, id).Some? :: RowOf(rows, id).value in rows && RowOf(rows, id).value.id == id
  {
    forall r | r in rows
      ensures RowOf(rows, r.id) == Some(r)
    {
      RowOfRow(rows, r);
    }
    forall id
      ensures RowOf(rows, id).None? <==> Unnamed(rows, id)
      ensures RowOf(rows, id).Some? ==> RowOf(rows, id).value in rows && RowOf(rows, id).value.id == id
    {
      RowOfIsNamed(rows, id);
    }
  }

  lemma CategoriesRewritten(env: Env, on: bool, u: UserId, before: map<Id, Category>, after: map<Id, Category>,
                            sent: seq<Row>, stored: seq<Row>)
    requires Sound(env.cipher) && StoredFrom(sent, stored, (r: Row) => StoredName(env, on, u, r))
    ensures CategoriesMigrated(env, on, u, before, after, sent) <==> after == RewriteCategories(before, stored)
  {
    RowsById(sent);
    forall name, r: Row
      ensures SaysName(env, on, u, name, r.value) <==> name == StoredName(env, on, u, r).value
    {
      NameIsSaid(env, on, u, r, name);
    }
    hide SaysName, StoredName, RowOf, NoDuplicates, Unnamed, Sound;
    if CategoriesMigrated(env, on, u, before, after, sent) {
      forall c | c in before
        ensures after[c] == RewriteCategories(before, stored)[c]
      {
        if RowOf(sent, c).Some? {
          assert RowOf(sent, c).value in sent;
        }
      }
    }
  }

  lemma KeyRewritten(env: Env, on: bool, u: UserId, before: Key, after: Key, r: Row)
    requires Sound(env.cipher)
    ensures KeyMigrated(env, on, u, before, after, r)
            <==> after == RewriteKey(before, Some(StoredName(env, on, u, r)))
  {
    NameIsSaid(env, on, u, r, after.name);
    hide SaysName, StoredName, Sound;
  }

  lemma GroupsRewritten(env: Env, on: bool, u: UserId, before: map<Id, Key>, after: map<Id, Key>, sent: seq<Row>,
                        stored: seq<Row>)
    requires Sound(env.cipher) && StoredFrom(sent, stored, (r: Row) => StoredName(env, on, u, r))
    ensures GroupsMigrated(env, on, u, before, after, sent) <==> after == RewriteKeys(before, stored)
  {
    RowsById(sent);
    forall b, a, r
      ensures KeyMigrated(env, on, u, b, a, r) <==> a == RewriteKey(b, Some(StoredName(env, on, u, r)))
    {
      KeyRewritten(env, on, u, b, a, r);
    }
    hide KeyMigrated, StoredName, RowOf, NoDuplicates, Unnamed, Sound;
    if GroupsMigrated(env, on, u, before, after, sent) {
      forall g | g in before
        ensures after[g] == RewriteKeys(before, stored)[g]
      {
        if RowOf(sent, g).Some? {
          assert RowOf(sent, g).value in sent;
        }
      }
    }
  }

  lemma TagRewritten(env: Env, on: bool, u: UserId, before: map<Id, Tag>, after: map<Id, Tag>, sent: seq<Row>,
                     stored: seq<Row>, t: Id)
    requires Sound(env.cipher) && StoredFrom(sent, stored, (r: Row) => StoredName(env, on, u, r))
    requires TagsMigrated(env, on, u, before, after, sent) && t in before
    ensures after[t] == RewriteTags(before, stored)[t]
  {
    RowsById(sent);
    hide KeyMigrated, StoredName, RowOf, NoDuplicates, Unnamed, Sound;
    if RowOf(sent, t).Some? {
      var r := RowOf(sent, t).value;
      KeyRewritten(env, on, u, before[t].key, after[t].key, r);
    }
  }

  lemma TagsRewritten(env: Env, on: bool, u: UserId, before: map<Id, Tag>, after: map<Id, Tag>, sent: seq<Row>,
                      stored: seq<Row>)
    requires Sound(env.cipher) && StoredFrom(sent, stored, (r: Row) => StoredName(env, on, u, r))
    ensures TagsMigrated(env, on, u, before, after, sent) <==> after == RewriteTags(before, stored)
  {
    if TagsMigrated(env, on, u, before, after, sent) {
      forall t | t in before
        ensures after[t] == RewriteTags(before, stored)[t]
      {
        TagRewritten(env, on, u, before, after, sent, stored, t);
      }
    }
    if after == RewriteTags(before, stored) {
      RowsById(sent);
      forall r | r in sent && r.id in before
        ensures KeyMigrated(env, on, u, before[r.id].key, after[r.id].key, r)
      {
        KeyRewritten(env, on, u, before[r.id].key, after[r.id].key, r);
      }
    }
    hide KeyMigrated, StoredName, RowOf, NoDuplicates, Unnamed, Sound;
  }

  lemma TextIsSaid(env: Env, on: bool, u: UserId, r: Row, text: string)
    requires Sound(env.cipher)
    ensures SaysText(env, on, u, text, r.value) <==> text == StoredText(env, on, u, r).value
  {
    EncSays(env, u, r.value);
  }

  lemma EventsRewritten(env: Env, on: bool, u: UserId, before: map<Id, Event>, after: map<Id, Event>, sent: seq<Row>,
                        stored: seq<Row>)
    requires Sound(env.cipher) && StoredFrom(sent, stored, (r: Row) => StoredText(env, on, u, r))
    ensures EventsMigrated(env, on, u, before, after, sent) <==> after == RewriteEvents(before, stored)
  {
    RowsById(sent);
    forall text, r: Row
      ensures SaysText(env, on, u, text, r.value) <==> text == StoredText(env, on, u, r).value
    {
      TextIsSaid(env, on, u, r, text);
    }
    hide SaysText, StoredText, RowOf, NoDuplicates, Unnamed, Sound;
    if EventsMigrated(env, on, u, before, after, sent) {
      forall e | e in before
        ensures after[e] == RewriteEvents(before, stored)[e]
      {
        if RowOf(sent, e).Some? {
          assert RowOf(sent, e).value in sent;
        }
      }
    }
  }

  lemma EnumeratesIsCovers(rows: seq<Row>, ids: set<Id>)
    ensures Enumerates(rows, ids) <==> Covers(rows, ids)
  {
    assert NoDuplicates(rows) <==> forall i, j | 0 <= i < j < |rows| :: rows[i].id != rows[j].id;
    assert forall id :: Names(rows, id) <==> exists r :: r in rows && r.id == id;
  }

  lemma NamesAllIsCoversAll(db: Db, u: UserId, data: Dataset)
    ensures NamesAll(db, u, data) <==> CoversAll(db, u, data)
  {
    assert (set c | c in db.categories && db.categories[c].user == u) == CategoriesOf(db.categories, u);
    assert KeysNamed(db, u, KeysOf(db.tags)) == TagsOf(db, u);
    assert KeysNamed(db, u, db.groups) == GroupsOf(db, u);
    assert (set e | e in db.events && db.events[e].user == u) == EventsOf(db.events, u);
    EnumeratesIsCovers(data.categories, CategoriesOf(db.categories, u));
    EnumeratesIsCovers(data.tags, TagsOf(db, u));
    EnumeratesIsCovers(data.groups, GroupsOf(db, u));
    EnumeratesIsCovers(data.events, EventsOf(db.events, u));
    hide Enumerates, Covers, TagsOf, GroupsOf, KeysNamed;
  }

  // What the service hands to the transaction
  function Handed(env: Env, on: bool, u: UserId, data: Dataset): Dataset {
    if on then data else AtRestData(env.cipher, u, Normal(env.alphabet, data))
  }

  lemma SameIdsCoverBoth(rows: seq<Row>, mapped: seq<Row>, ids: set<Id>)
    requires |mapped| == |rows| && forall i | 0 <= i < |rows| :: mapped[i].id == rows[i].id
    ensures Covers(mapped, ids) <==> Covers(rows, ids)
  {
    hide Covers;
    if Covers(rows, ids) {
      SameIdsCover(rows, mapped, ids);
    }
    if Covers(mapped, ids) {
      SameIdsCover(mapped, rows, ids);
    }
  }

  lemma SameRowsSwap(env: Env, on: bool, db: Db, u: UserId, data: Dataset)
    ensures CoversAll(db, u, Handed(env, on, u, data)) <==> CoversAll(db, u, data)
  {
    hide TitleCase, Covers, TagsOf, GroupsOf, CategoriesOf, EventsOf;
    var stored := Handed(env, on, u, data);
    SameIdsCoverBoth(data.categories, stored.categories, CategoriesOf(db.categories, u));
    SameIdsCoverBoth(data.tags, stored.tags, TagsOf(db, u));
    SameIdsCoverBoth(data.groups, stored.groups, GroupsOf(db, u));
    SameIdsCoverBoth(data.events, stored.events, EventsOf(db.events, u));
  }

  lemma MigratedIsRewritten(env: Env, db: Db, would: Db, u: UserId, on: bool, check: Option<string>, data: Dataset)
    requires Sound(env.cipher) && CoversAll(db, u, data)
    ensures Migrated(env, db, would, u, on, check, data)
            <==> would == Rewrite(db, Handed(env, on, u, data)).(users := db.users[u := User(on, check)])
  {
    var stored := Handed(env, on, u, data);
    NamesStored(env, on, u, data.categories);
    NamesStored(env, on, u, data.tags);
    NamesStored(env, on, u, data.groups);
    TextsStored(env, on, u, data.events);
    hide StoredFrom, StoredName, StoredText, MapRows, NoDuplicates, Names;
    CategoriesRewritten(env, on, u, db.categories, would.categories, data.categories, stored.categories);
    TagsRewritten(env, on, u, db.tags, would.tags, data.tags, stored.tags);
    GroupsRewritten(env, on, u, db.groups, would.groups, data.groups, stored.groups);
    EventsRewritten(env, on, u, db.events, would.events, data.events, stored.events);
    hide CategoriesMigrated, TagsMigrated, GroupsMigrated, EventsMigrated, RewriteCategories, RewriteTags, RewriteKeys,
      RewriteEvents, CoversAll, AtRestRows, Sound;
  }

  // The answer of the transaction, and what it leaves
  ghost predicate Swapped(env: Env, db: Db, next: Db, outcome: Outcome, u: UserId, on: bool, check: Option<string>,
                          data: Dataset) {
    && (outcome == Conflict <==>
          || E2ee(db, u) == on || !NamesAll(db, u, data)
          || exists would :: Migrated(env, db, would, u, on, check, data)
                             && !(TagNamesUnique(would.tags) && KeysUnique(would.groups)))
    && outcome in {Conflict, Done(u)}
    && (outcome.Done? ==> Migrated(env, db, next, u, on, check, data) && TagNamesUnique(next.tags)
                          && KeysUnique(next.groups))
    && (!outcome.Done? ==> next == db)
  }

  lemma SwapDoes(env: Env, db: Db, u: UserId, on: bool, check: Option<string>, data: Dataset)
    requires Sound(env.cipher)
    ensures var (next, outcome) := Swap(db, u, on, check, Handed(env, on, u, data));
            Swapped(env, db, next, outcome, u, on, check, data)
  {
    NamesAllIsCoversAll(db, u, data);
    SameRowsSwap(env, on, db, u, data);
    hide NamesAll, CoversAll, E2ee, Sound, TagNamesUnique, KeysUnique, Handed;
    if CoversAll(db, u, data) {
      var made := Rewrite(db, Handed(env, on, u, data)).(users := db.users[u := User(on, check)]);
      forall would
        ensures Migrated(env, db, would, u, on, check, data) <==> would == made
      {
        MigratedIsRewritten(env, db, would, u, on, check, data);
      }
      hide Migrated;
    }
  }

  // A payload of the wrong shape is refused. One that repeats, misses or invents a row is
  // refused as a conflict, and so is one that would leave two names of a category the same;
  // else each row stands as it was sent and E2EE is on
  lemma EnableDoes(env: Env, db: Db, u: UserId, check: string, data: Dataset)
    requires Sound(env.cipher)
    ensures var (next, outcome) := Enable(db, u, check, data);
            var shaped := IsKeyCheck(check) && Encrypted(data.categories, false, false)
                          && Encrypted(data.tags, true, false) && Encrypted(data.groups, true, false)
                          && Encrypted(data.events, false, true);
            if shaped then Swapped(env, db, next, outcome, u, true, Some(check), data)
            else next == db && outcome == BadRequest
  {
    assert Handed(env, true, u, data) == data;
    SwapDoes(env, db, u, true, Some(check), data);
    hide Swap, Swapped, IsBlob, IsIndex, IsKeyCheck, Sound;
  }

  lemma NotBlankIsNoBlanks(a: Alphabet, rows: seq<Row>)
    ensures NotBlank(a, rows) <==> NoBlanks(a, rows)
  {
  }

  // Text goes back to rest: descriptions as they are, names in their normal form and without
  // indexes. A blank name is refused, and the conflicts are those of the other way
  lemma DisableDoes(env: Env, db: Db, u: UserId, data: Dataset)
    requires Sound(env.cipher)
    ensures var (next, outcome) := Disable(env, db, u, data);
            var named := NotBlank(env.alphabet, data.categories) && NotBlank(env.alphabet, data.tags)
                         && NotBlank(env.alphabet, data.groups);
            if named then Swapped(env, db, next, outcome, u, false, None, data)
            else next == db && outcome == BadRequest
  {
    SwapDoes(env, db, u, false, None, data);
    NotBlankIsNoBlanks(env.alphabet, data.categories);
    NotBlankIsNoBlanks(env.alphabet, data.tags);
    NotBlankIsNoBlanks(env.alphabet, data.groups);
    hide Swap, Swapped, Sound, AtRestData, Normal, NotBlank, NoBlanks;
  }
}
