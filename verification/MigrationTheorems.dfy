/** What a migration between the two modes promises. */
module MigrationTheorems {
  import opened Options
  import opened Encryption
  import opened Text
  import opened Catalog
  import opened CatalogInvariant
  import opened CatalogModes
  import opened Migration

  function KeysOf(tags: map<Id, Tag>): map<Id, Key> {
    map t | t in tags :: tags[t].key
  }

  // The rows the service hands to the transaction in either direction
  ghost predicate RowsMode(k: Cipher, on: bool, u: UserId, rows: seq<Row>) {
    forall r | r in rows :: Stored(k, on, u, r.value) && if on then r.index.Some? && IsIndex(r.index.value)
        else r.index.None?
  }

  ghost predicate DataMode(k: Cipher, on: bool, u: UserId, data: Dataset) {
    && (forall r | r in data.categories :: Stored(k, on, u, r.value))
    && RowsMode(k, on, u, data.tags)
    && RowsMode(k, on, u, data.groups)
    && (forall r | r in data.events :: DescriptionMode(k, on, u, r.value))
  }

  lemma EnableDataMode(k: Cipher, u: UserId, data: Dataset)
    requires ShapesOk(data)
    ensures DataMode(k, true, u, data)
  {
    hide IsBlob, IsIndex;
  }

  lemma AtRestRowMode(k: Cipher, u: UserId, rows: seq<Row>, r: Row)
    requires Sound(k) && r in AtRestRows(k, u, rows)
    ensures AtRest(k, u, r.value)
    ensures (forall s | s in rows :: s.index.None?) ==> r.index.None?
  {
    var i :| 0 <= i < |rows| && AtRestRows(k, u, rows)[i] == r;
    EncIsAtRest(k, u, rows[i].value);
    hide AtRest;
  }

  lemma DisableDataMode(env: Env, u: UserId, data: Dataset)
    requires Sound(env.cipher)
    ensures DataMode(env.cipher, false, u, AtRestData(env.cipher, u, Normal(env.alphabet, data)))
  {
    var normal := Normal(env.alphabet, data);
    hide TitleCase, AtRest;
    forall r | r in AtRestRows(env.cipher, u, normal.categories) ensures AtRest(env.cipher, u, r.value) {
      AtRestRowMode(env.cipher, u, normal.categories, r);
    }
    forall r | r in AtRestRows(env.cipher, u, normal.tags) ensures AtRest(env.cipher, u, r.value) && r.index.None? {
      AtRestRowMode(env.cipher, u, normal.tags, r);
    }
    forall r | r in AtRestRows(env.cipher, u, normal.groups) ensures AtRest(env.cipher, u, r.value) && r.index.None? {
      AtRestRowMode(env.cipher, u, normal.groups, r);
    }
    forall r | r in AtRestRows(env.cipher, u, normal.events) ensures AtRest(env.cipher, u, r.value) {
      AtRestRowMode(env.cipher, u, normal.events, r);
    }
    hide Normal, AtRestRows;
  }

  // ---- The unique keys ----

  // Every key in a category of the user's is in the mode about to be left
  ghost predicate KeysMode(k: Cipher, on: bool, u: UserId, keys: map<Id, Key>, mine: set<Id>) {
    forall x | x in keys && keys[x].category in mine :: KeyMode(k, on, u, keys[x])
  }

  // A blob is told from text at rest by its prefix, so a rewritten row never meets a row
  // that is still to be rewritten
  lemma NewRowsAreApart(k: Cipher, on: bool, u: UserId, keys: map<Id, Key>, mine: set<Id>, rows: seq<Row>)
    requires Sound(k) && KeysMode(k, !on, u, keys, mine) && RowsMode(k, on, u, rows)
    requires forall r | r in rows :: r.id in keys && keys[r.id].category in mine
    ensures ApartFromStored(keys, rows)
  {
    forall x, r | x in keys && r in rows && keys[x].category == keys[r.id].category
      ensures keys[x].name != r.value && (r.index.Some? ==> keys[x].index != r.index)
    {
      assert KeyMode(k, !on, u, keys[x]);
      if on {
        BlobsAreNotAtRest(k, u, k.dec(u, keys[x].name).value, r.value);
      } else {
        BlobsAreNotAtRest(k, u, k.dec(u, r.value).value, keys[x].name);
      }
    }
  }

  lemma FinalClash(keys: map<Id, Key>, rows: seq<Row>, a: Id, b: Id)
    requires KeysUnique(keys) && (forall r | r in rows :: r.id in keys) && NoDuplicates(rows)
             && ApartFromStored(keys, rows)
    requires NoCollapse(keys, rows) && a in keys && b in keys && a != b
    ensures !Clash(RewriteKeys(keys, rows)[a], RewriteKeys(keys, rows)[b])
  {
    RowOfIsNamed(rows, a);
    RowOfIsNamed(rows, b);
    if Names(rows, a) && Names(rows, b) {
      var i :| 0 <= i < |rows| && rows[i].id == a;
      var j :| 0 <= j < |rows| && rows[j].id == b;
      RewrittenClash(keys, rows, rows[i], rows[j]);
      assert !Collapse(keys, rows[if i < j then i else j], rows[if i < j then j else i]);
    } else if Names(rows, a) {
      var r := RowOf(rows, a).value;
      StoredNeverClashes(keys, rows, rows, b, r);
    } else if Names(rows, b) {
      var r := RowOf(rows, b).value;
      StoredNeverClashes(keys, rows, rows, a, r);
    } else {
      assert !Clash(keys[a], keys[b]);
    }
  }

  // The rewritten keys are unique exactly when no two rows of a category collapse
  lemma UniqueUnlessCollapsed(keys: map<Id, Key>, rows: seq<Row>)
    requires KeysUnique(keys) && (forall r | r in rows :: r.id in keys) && NoDuplicates(rows)
             && ApartFromStored(keys, rows)
    ensures KeysUnique(RewriteKeys(keys, rows)) <==> NoCollapse(keys, rows)
  {
    if NoCollapse(keys, rows) {
      forall a, b | a in keys && b in keys && a != b
        ensures !Clash(RewriteKeys(keys, rows)[a], RewriteKeys(keys, rows)[b])
      {
        FinalClash(keys, rows, a, b);
      }
    } else {
      var i, j :| 0 <= i < j < |rows| && Collapse(keys, rows[i], rows[j]);
      RewrittenClash(keys, rows, rows[i], rows[j]);
    }
  }

  lemma TagsByKeys(tags: map<Id, Tag>, rows: seq<Row>)
    ensures KeysOf(RewriteTags(tags, rows)) == RewriteKeys(KeysOf(tags), rows)
    ensures TagNamesUnique(tags) <==> KeysUnique(KeysOf(tags))
  {
    hide Clash, RewriteKey;
  }

  ghost predicate Covered(db: Db, u: UserId, rows: seq<Row>, keys: map<Id, Key>) {
    NoDuplicates(rows) && forall r | r in rows :: r.id in keys && keys[r.id].category in CategoriesOf(db.categories, u)
  }

  lemma ModesOfMine(k: Cipher, db: Db, u: UserId)
    requires Modes(k, db)
    ensures KeysMode(k, E2ee(db, u), u, KeysOf(db.tags), CategoriesOf(db.categories, u))
    ensures KeysMode(k, E2ee(db, u), u, db.groups, CategoriesOf(db.categories, u))
  {
    hide KeyMode;
    forall t | t in db.tags
      ensures OwnerMode(k, db.users, db.categories, db.tags[t].key)
    {
    }
  }

  lemma CoversCovered(db: Db, u: UserId, data: Dataset)
    requires CoversAll(db, u, data)
    ensures Covered(db, u, data.tags, KeysOf(db.tags)) && Covered(db, u, data.groups, db.groups)
  {
  }

  // A transaction that covers the stored rows goes through, row by row and in any order,
  // exactly when no two rows of one category collapse; what it leaves is then the rewritten rows
  lemma SwapConflictsExactlyOnCollapse(k: Cipher, db: Db, u: UserId, enable: bool, keyCheck: Option<string>,
                                       data: Dataset)
    requires Sound(k) && Modes(k, db) && Aggregate(db)
    requires E2ee(db, u) != enable && CoversAll(db, u, data) && DataMode(k, enable, u, data)
    ensures var tags := KeysOf(db.tags);
            && (forall r | r in data.tags :: r.id in tags) && (forall r | r in data.groups :: r.id in db.groups)
            && (RowByRow(tags, data.tags).Some? <==> NoCollapse(tags, data.tags))
            && (RowByRow(db.groups, data.groups).Some? <==> NoCollapse(db.groups, data.groups))
            && (Swap(db, u, enable, keyCheck, data).1.Done?
                <==> NoCollapse(tags, data.tags) && NoCollapse(db.groups, data.groups))
  {
    var tags, mine := KeysOf(db.tags), CategoriesOf(db.categories, u);
    ModesOfMine(k, db, u);
    CoversCovered(db, u, data);
    TagsByKeys(db.tags, data.tags);
    TagsByKeys(RewriteTags(db.tags, data.tags), []);
    hide Sound, Modes, CategoriesOk, DefaultsOk, TagsOk, GroupsOk, MembersOk, EventsOk, LinksOk, CoversAll, KeysMode,
      RowsMode, KeysUnique, TagNamesUnique, NoCollapse, RowByRow, ApartFromStored, NoDuplicates, CategoriesOf, KeysOf,
      RewriteTags, RewriteKeys;
    NewRowsAreApart(k, enable, u, tags, mine, data.tags);
    NewRowsAreApart(k, enable, u, db.groups, mine, data.groups);
    UniqueUnlessCollapsed(tags, data.tags);
    UniqueUnlessCollapsed(db.groups, data.groups);
    RowByRowConflicts(tags, data.tags);
    RowByRowConflicts(db.groups, data.groups);
  }

  // ---- The invariants survive ----

  ghost predicate Renamed(next: map<Id, Category>, categories: map<Id, Category>) {
    next.Keys == categories.Keys && forall c | c in categories :: next[c] == categories[c].(name := next[c].name)
  }

  ghost predicate Retitled(next: map<Id, Tag>, tags: map<Id, Tag>) {
    next.Keys == tags.Keys
    && forall t | t in tags :: next[t].parent == tags[t].parent && next[t].key.category == tags[t].key.category
  }

  lemma RewritesRename(db: Db, data: Dataset)
    ensures Renamed(RewriteCategories(db.categories, data.categories), db.categories)
    ensures Retitled(RewriteTags(db.tags, data.tags), db.tags)
  {
    hide RowOf;
  }

  lemma RenamedKeepsCategories(users: map<UserId, User>, next: map<Id, Category>, categories: map<Id, Category>)
    requires Renamed(next, categories) && CategoriesOk(users, categories)
    ensures CategoriesOk(users, next)
  {
    forall c, d | c in next && d in next && c != d
      ensures Apart(next[c], next[d])
    {
      assert Apart(categories[c], categories[d]);
    }
  }

  lemma RenamedKeepsDefaults(users: map<UserId, User>, next: map<Id, Category>, categories: map<Id, Category>)
    requires Renamed(next, categories) && DefaultsOk(users, categories)
    ensures DefaultsOk(users, next)
  {
    hide HasKind;
    forall v | v in users
      ensures HasKind(next, v, Date) && HasKind(next, v, Other)
    {
      HasKindSomewhere(categories, next, v, Date);
      HasKindSomewhere(categories, next, v, Other);
    }
  }

  lemma RetitledKeepsTags(next: map<Id, Tag>, tags: map<Id, Tag>, categories: map<Id, Category>, renamed: map<Id,
                          Category>)
    requires Retitled(next, tags) && Renamed(renamed, categories) && TagsOk(categories, tags)
    ensures TagsOk(renamed, next)
  {
    forall t | t in next
      ensures ParentOk(next, t)
    {
      assert ParentOk(tags, t);
    }
  }

  lemma RewriteKeepsGroups(db: Db, data: Dataset, categories: map<Id, Category>, tags: map<Id, Tag>)
    requires Renamed(categories, db.categories) && Retitled(tags, db.tags)
    requires GroupsOk(db.categories, db.groups) && MembersOk(db.tags, db.groups, db.members)
    ensures GroupsOk(categories, RewriteKeys(db.groups, data.groups))
            && MembersOk(tags, RewriteKeys(db.groups, data.groups), db.members)
  {
    hide RowOf;
  }

  lemma RewriteKeepsEvents(db: Db, data: Dataset, categories: map<Id, Category>, tags: map<Id, Tag>)
    requires Renamed(categories, db.categories) && Retitled(tags, db.tags)
    requires EventsOk(db.users, db.events) && LinksOk(db.categories, db.tags, db.events, db.links)
    ensures var events := RewriteEvents(db.events, data.events);
            EventsOk(db.users, events) && LinksOk(categories, tags, events, db.links)
  {
    var events := RewriteEvents(db.events, data.events);
    assert events.Keys == db.events.Keys;
    assert forall e | e in db.events :: events[e] == db.events[e].(description := events[e].description);
    hide RowOf, PeriodOk, RewriteEvents;
  }

  lemma FlagKeepsUsers(db: Db, u: UserId, user: User)
    requires CategoriesOk(db.users, db.categories) && DefaultsOk(db.users, db.categories)
             && EventsOk(db.users, db.events) && u in db.users
    ensures CategoriesOk(db.users[u := user], db.categories) && DefaultsOk(db.users[u := user], db.categories)
    ensures EventsOk(db.users[u := user], db.events)
  {
    hide Apart, PeriodOk, HasKind;
  }

  lemma SwapKeeps(db: Db, u: UserId, enable: bool, keyCheck: Option<string>, data: Dataset)
    requires Aggregate(db) && u in db.users
    ensures Aggregate(Swap(db, u, enable, keyCheck, data).0)
  {
    if Swap(db, u, enable, keyCheck, data).1.Done? {
      var next := Rewrite(db, data);
      RewritesRename(db, data);
      RenamedKeepsCategories(db.users, next.categories, db.categories);
      RenamedKeepsDefaults(db.users, next.categories, db.categories);
      RetitledKeepsTags(next.tags, db.tags, db.categories, next.categories);
      RewriteKeepsGroups(db, data, next.categories, next.tags);
      RewriteKeepsEvents(db, data, next.categories, next.tags);
      hide Renamed, Retitled, CategoriesOk, DefaultsOk, TagsOk, GroupsOk, MembersOk, EventsOk, LinksOk, KeysUnique,
        TagNamesUnique, CoversAll, RewriteCategories, RewriteTags, RewriteKeys, RewriteEvents;
      FlagKeepsUsers(next, u, User(enable, keyCheck));
    }
  }

  // The rows of a payload are the user's, each of them and no other
  lemma CoveredRow(rows: seq<Row>, stored: set<Id>, id: Id)
    requires Covers(rows, stored)
    ensures RowOf(rows, id).Some? <==> id in stored
    ensures RowOf(rows, id).Some? ==> RowOf(rows, id).value in rows
  {
    RowOfIsNamed(rows, id);
  }

  lemma RewrittenKeyMode(k: Cipher, on: bool, u: UserId, key: Key, rows: seq<Row>, id: Id)
    requires RowsMode(k, on, u, rows) && RowOf(rows, id).Some? && RowOf(rows, id).value in rows
    ensures KeyMode(k, on, u, RewriteKey(key, RowOf(rows, id)))
  {
  }

  lemma SwapTagModes(k: Cipher, db: Db, u: UserId, on: bool, users: map<UserId, User>, data: Dataset)
    requires TagModes(k, db.users, db.categories, db.tags) && TagsOk(db.categories, db.tags)
    requires Covers(data.tags, TagsOf(db, u)) && RowsMode(k, on, u, data.tags)
    requires On(users, u) == on && forall v | v != u :: On(users, v) == On(db.users, v)
    ensures TagModes(k, users, RewriteCategories(db.categories, data.categories), RewriteTags(db.tags, data.tags))
  {
    hide KeyMode, RowsMode, Covers;
    var tags, categories := RewriteTags(db.tags, data.tags), RewriteCategories(db.categories, data.categories);
    forall t | t in tags
      ensures OwnerMode(k, users, categories, tags[t].key)
    {
      CoveredRow(data.tags, TagsOf(db, u), t);
      assert OwnerMode(k, db.users, db.categories, db.tags[t].key);
      if t in TagsOf(db, u) {
        RewrittenKeyMode(k, on, u, db.tags[t].key, data.tags, t);
      }
    }
  }

  lemma SwapGroupModes(k: Cipher, db: Db, u: UserId, on: bool, users: map<UserId, User>, data: Dataset)
    requires GroupModes(k, db.users, db.categories, db.groups) && GroupsOk(db.categories, db.groups)
    requires Covers(data.groups, GroupsOf(db, u)) && RowsMode(k, on, u, data.groups)
    requires On(users, u) == on && forall v | v != u :: On(users, v) == On(db.users, v)
    ensures GroupModes(k, users, RewriteCategories(db.categories, data.categories), RewriteKeys(db.groups, data.groups))
  {
    hide KeyMode, RowsMode, Covers;
    var groups, categories := RewriteKeys(db.groups, data.groups), RewriteCategories(db.categories, data.categories);
    forall g | g in groups
      ensures OwnerMode(k, users, categories, groups[g])
    {
      CoveredRow(data.groups, GroupsOf(db, u), g);
      assert OwnerMode(k, db.users, db.categories, db.groups[g]);
      if g in GroupsOf(db, u) {
        RewrittenKeyMode(k, on, u, db.groups[g], data.groups, g);
      }
    }
  }

  lemma SwapPlainModes(k: Cipher, db: Db, u: UserId, on: bool, users: map<UserId, User>, data: Dataset)
    requires CategoryModes(k, db.users, db.categories) && EventModes(k, db.users, db.events)
    requires Covers(data.categories, CategoriesOf(db.categories, u)) && Covers(data.events, EventsOf(db.events, u))
    requires forall r | r in data.categories :: Stored(k, on, u, r.value)
    requires forall r | r in data.events :: DescriptionMode(k, on, u, r.value)
    requires On(users, u) == on && forall v | v != u :: On(users, v) == On(db.users, v)
    ensures CategoryModes(k, users, RewriteCategories(db.categories, data.categories))
    ensures EventModes(k, users, RewriteEvents(db.events, data.events))
  {
    hide Stored, DescriptionMode, Covers;
    forall c | c in db.categories
      ensures RowOf(data.categories, c).Some? <==> db.categories[c].user == u
      ensures RowOf(data.categories, c).Some? ==> RowOf(data.categories, c).value in data.categories
    {
      CoveredRow(data.categories, CategoriesOf(db.categories, u), c);
    }
    forall e | e in db.events
      ensures RowOf(data.events, e).Some? <==> db.events[e].user == u
      ensures RowOf(data.events, e).Some? ==> RowOf(data.events, e).value in data.events
    {
      CoveredRow(data.events, EventsOf(db.events, u), e);
    }
    hide RowOf;
  }

  lemma SwapKeepsModes(k: Cipher, db: Db, u: UserId, enable: bool, keyCheck: Option<string>, data: Dataset)
    requires Modes(k, db) && Aggregate(db) && u in db.users && DataMode(k, enable, u, data)
    requires if enable then keyCheck.Some? && IsKeyCheck(keyCheck.value) else keyCheck.None?
    ensures Modes(k, Swap(db, u, enable, keyCheck, data).0)
  {
    hide CategoriesOk, DefaultsOk, TagsOk, GroupsOk, MembersOk, EventsOk, LinksOk, KeysUnique, TagNamesUnique,
      TagModes, GroupModes, CategoryModes, EventModes, RowsMode, Covers, Stored, DescriptionMode, RewriteCategories,
      RewriteTags, RewriteKeys, RewriteEvents;
    if Swap(db, u, enable, keyCheck, data).1.Done? {
      var users := db.users[u := User(enable, keyCheck)];
      assert UserModes(users) by { hide CoversAll; }
      hide UserModes, IsKeyCheck;
      assert Covers(data.tags, TagsOf(db, u)) && Covers(data.groups, GroupsOf(db, u))
             && Covers(data.categories, CategoriesOf(db.categories, u)) && Covers(data.events, EventsOf(db.events, u));
      SwapTagModes(k, db, u, enable, users, data);
      SwapGroupModes(k, db, u, enable, users, data);
      SwapPlainModes(k, db, u, enable, users, data);
    }
  }

  lemma AtRestOfMine(k: Cipher, db: Db, u: UserId)
    requires Modes(k, db) && !E2ee(db, u)
    ensures forall t | t in TagsOf(db, u) :: KeyMode(k, false, u, db.tags[t].key)
    ensures forall g | g in GroupsOf(db, u) :: KeyMode(k, false, u, db.groups[g])
    ensures forall c | c in db.categories && db.categories[c].user == u :: AtRest(k, u, db.categories[c].name)
    ensures forall e | e in db.events && db.events[e].user == u :: AtRest(k, u, db.events[e].description)
  {
    hide AtRest;
    forall t | t in TagsOf(db, u)
      ensures KeyMode(k, false, u, db.tags[t].key)
    {
      assert OwnerMode(k, db.users, db.categories, db.tags[t].key);
    }
    forall g | g in GroupsOf(db, u)
      ensures KeyMode(k, false, u, db.groups[g])
    {
      assert OwnerMode(k, db.users, db.categories, db.groups[g]);
    }
  }
}
