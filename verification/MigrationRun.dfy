/** The E2EE migration as it runs: the checks, the payload loops, and the rows rewritten one by one. */
module MigrationRun {
  import opened Collections
  import opened Options
  import opened Encryption
  import opened Text
  import opened Catalog
  import opened CatalogModes
  import opened Migration
  import opened MigrationTheorems

  // Conflicts unless the payload is an enumeration of the stored ids, each once
  method CheckIdSetMatches(stored: set<Id>, rows: seq<Row>) returns (ok: bool)
    ensures ok <==> Covers(rows, stored)
  {
    var payload: set<Id> := {};
    for i := 0 to |rows|
      invariant payload <= stored
      invariant forall id :: id in payload <==> exists j | 0 <= j < i :: rows[j].id == id
      invariant forall j, k | 0 <= j < k < i :: rows[j].id != rows[k].id
    {
      if rows[i].id in payload {
        return false;
      }
      if rows[i].id !in stored {
        assert rows[i] in rows;
        return false;
      }
      payload := payload + {rows[i].id};
    }
    ok := |payload| == |stored|;
    SubsetSize(payload, stored);
    forall id
      ensures id in payload <==> Names(rows, id)
    {
      if id in payload {
        var j :| 0 <= j < |rows| && rows[j].id == id;
        assert rows[j] in rows;
      }
    }
    assert (forall id | id in stored :: Names(rows, id)) <==> payload == stored;
  }

  // Re-apply the normal form to names coming back in the clear; None for a blank one
  method NormaliseRows(a: Alphabet, rows: seq<Row>) returns (normal: Option<seq<Row>>)
    ensures normal.Some? <==> NoBlanks(a, rows)
    ensures normal.Some? ==> normal.value == MapRows(rows, r => NormalRow(a, r))
  {
    var done: seq<Row> := [];
    for i := 0 to |rows|
      invariant |done| == i && forall j | 0 <= j < i :: done[j] == NormalRow(a, rows[j]) && !IsBlank(a, rows[j].value)
    {
      if IsBlank(a, rows[i].value) {
        assert rows[i] in rows;
        return None;
      }
      var name := TitleCaseRunes(a, rows[i].value);
      done := done + [Row(rows[i].id, name, None)];
    }
    return Some(done);
  }

  // What is stored for a value of the payload
  function StoredValue(k: Cipher, u: UserId, enable: bool, value: string): string {
    if enable then value else k.enc(u, value)
  }

  function StoredRows(k: Cipher, u: UserId, enable: bool, rows: seq<Row>): seq<Row> {
    if enable then rows else AtRestRows(k, u, rows)
  }

  function StoredData(k: Cipher, u: UserId, enable: bool, data: Dataset): Dataset {
    if enable then data else AtRestData(k, u, data)
  }

  lemma StoredRow(k: Cipher, u: UserId, enable: bool, rows: seq<Row>, i: nat)
    requires i < |rows|
    ensures |StoredRows(k, u, enable, rows)| == |rows|
    ensures StoredRows(k, u, enable, rows)[i] == rows[i].(value := StoredValue(k, u, enable, rows[i].value))
  {
  }

  lemma OneMoreCategory(categories: map<Id, Category>, rows: seq<Row>, i: nat)
    requires i < |rows| && rows[i].id in categories
    ensures var before := RewriteCategories(categories, rows[..i]);
            RewriteCategories(categories, rows[..i + 1])
                == before[rows[i].id := before[rows[i].id].(name := rows[i].value)]
  {
    assert rows[..i + 1][..i] == rows[..i];
  }

  method RewriteCategoryRows(k: Cipher, u: UserId, enable: bool, before: map<Id, Category>,
                             rows: seq<Row>) returns (categories: map<Id, Category>)
    requires forall r | r in rows :: r.id in before
    ensures categories == RewriteCategories(before, StoredRows(k, u, enable, rows))
  {
    ghost var stored := StoredRows(k, u, enable, rows);
    categories := before;
    for i := 0 to |rows|
      invariant |stored| == |rows| && categories == RewriteCategories(before, stored[..i])
    {
      assert rows[i] in rows;
      StoredRow(k, u, enable, rows, i);
      OneMoreCategory(before, stored, i);
      hide RewriteCategories, StoredRows;
      categories := categories[rows[i].id := categories[rows[i].id].(name := StoredValue(k, u, enable, rows[i].value))];
    }
    assert stored[..|rows|] == stored;
  }

  lemma OneMoreEvent(events: map<Id, Event>, rows: seq<Row>, i: nat)
    requires i < |rows| && rows[i].id in events
    ensures var before := RewriteEvents(events, rows[..i]);
            RewriteEvents(events, rows[..i + 1])
                == before[rows[i].id := before[rows[i].id].(description := rows[i].value)]
  {
    assert rows[..i + 1][..i] == rows[..i];
  }

  method RewriteEventRows(k: Cipher, u: UserId, enable: bool, before: map<Id, Event>,
                          rows: seq<Row>) returns (events: map<Id, Event>)
    requires forall r | r in rows :: r.id in before
    ensures events == RewriteEvents(before, StoredRows(k, u, enable, rows))
  {
    ghost var stored := StoredRows(k, u, enable, rows);
    events := before;
    for i := 0 to |rows|
      invariant |stored| == |rows| && events == RewriteEvents(before, stored[..i])
    {
      assert rows[i] in rows;
      StoredRow(k, u, enable, rows, i);
      OneMoreEvent(before, stored, i);
      hide RewriteEvents, StoredRows;
      events := events[rows[i].id := events[rows[i].id].(description := StoredValue(k, u, enable, rows[i].value))];
    }
    assert stored[..|rows|] == stored;
  }

  lemma {:induction false} PrefixStops(keys: map<Id, Key>, rows: seq<Row>, i: nat)
    requires (forall r | r in rows :: r.id in keys) && i <= |rows|
    ensures (forall r | r in rows[..i] :: r.id in keys)
    ensures RowByRow(keys, rows).Some? ==> RowByRow(keys, rows[..i]).Some?
    decreases |rows| - i
  {
    if i < |rows| {
      PrefixStops(keys, rows, i + 1);
      assert rows[..i + 1][..i] == rows[..i];
    } else {
      assert rows[..i] == rows;
    }
  }

  lemma OneMoreKey(keys: map<Id, Key>, rows: seq<Row>, i: nat)
    requires i < |rows| && (forall r | r in rows :: r.id in keys)
    requires (forall r | r in rows[..i] :: r.id in keys) && RowByRow(keys, rows[..i]).Some?
    ensures (forall r | r in rows[..i + 1] :: r.id in keys) && rows[i].id in RewriteKeys(keys, rows[..i + 1])
    ensures var before := RewriteKeys(keys, rows[..i]);
            RewriteKeys(keys, rows[..i + 1])
                == before[rows[i].id := before[rows[i].id].(name := rows[i].value, index := rows[i].index)]
    ensures RowByRow(keys, rows[..i + 1]).Some? <==> !Taken(RewriteKeys(keys, rows[..i + 1]), rows[i].id)
  {
    var more := rows[..i + 1];
    assert more[..i] == rows[..i] && forall r | r in more :: r in rows;
    RowByRowOneMore(keys, more);
    OneMoreRow(keys, more);
    hide RowByRow, Taken;
  }

  // UPDATE the names row by row; a row that hits a unique key stops the transaction
  method RewriteKeyRows(k: Cipher, u: UserId, enable: bool, before: map<Id, Key>,
                        rows: seq<Row>) returns (keys: Option<map<Id, Key>>)
    requires forall r | r in rows :: r.id in before
    ensures var stored := StoredRows(k, u, enable, rows);
            && (forall r | r in stored :: r.id in before)
            && keys == RowByRow(before, stored)
  {
    ghost var stored := StoredRows(k, u, enable, rows);
    StoredIds(k, u, enable, rows, before);
    var done := before;
    assert RewriteKeys(before, stored[..0]) == before;
    for i := 0 to |rows|
      invariant |stored| == |rows| && (forall r | r in stored[..i] :: r.id in before)
      invariant done == RewriteKeys(before, stored[..i]) && RowByRow(before, stored[..i]).Some?
    {
      StoredRow(k, u, enable, rows, i);
      PrefixStops(before, stored, i + 1);
      OneMoreKey(before, stored, i);
      hide RewriteKeys, StoredRows, RowByRow, Taken;
      var id := rows[i].id;
      done := done[id := done[id].(name := StoredValue(k, u, enable, rows[i].value), index := rows[i].index)];
      if Taken(done, id) {
        return None;
      }
    }
    assert stored[..|rows|] == stored;
    return Some(done);
  }

  lemma StoredIds(k: Cipher, u: UserId, enable: bool, rows: seq<Row>, keys: map<Id, Key>)
    requires forall r | r in rows :: r.id in keys
    ensures forall r | r in StoredRows(k, u, enable, rows) :: r.id in keys
  {
    var stored := StoredRows(k, u, enable, rows);
    forall r | r in stored
      ensures r.id in keys
    {
      var i :| 0 <= i < |stored| && stored[i] == r;
      StoredRow(k, u, enable, rows, i);
      assert rows[i] in rows;
    }
  }

  lemma RowsCoverAlike(k: Cipher, u: UserId, enable: bool, rows: seq<Row>, stored: set<Id>)
    ensures Covers(StoredRows(k, u, enable, rows), stored) <==> Covers(rows, stored)
  {
    var mapped := StoredRows(k, u, enable, rows);
    forall i | 0 <= i < |rows|
      ensures |mapped| == |rows| && mapped[i].id == rows[i].id
    {
      StoredRow(k, u, enable, rows, i);
    }
    assert |mapped| == |rows|;
    hide StoredRows, Covers;
    if Covers(rows, stored) {
      SameIdsCover(rows, mapped, stored);
    }
    if Covers(mapped, stored) {
      SameIdsCover(mapped, rows, stored);
    }
  }

  lemma DataCoverAlike(k: Cipher, db: Db, u: UserId, enable: bool, data: Dataset)
    ensures CoversAll(db, u, StoredData(k, u, enable, data)) <==> CoversAll(db, u, data)
  {
    hide Covers;
    RowsCoverAlike(k, u, enable, data.categories, CategoriesOf(db.categories, u));
    RowsCoverAlike(k, u, enable, data.tags, TagsOf(db, u));
    RowsCoverAlike(k, u, enable, data.groups, GroupsOf(db, u));
    RowsCoverAlike(k, u, enable, data.events, EventsOf(db.events, u));
  }

  function WithKeys(tags: map<Id, Tag>, keys: map<Id, Key>): map<Id, Tag>
    requires tags.Keys <= keys.Keys
  {
    map t | t in tags :: tags[t].(key := keys[t])
  }

  lemma RewrittenWithKeys(tags: map<Id, Tag>, rows: seq<Row>)
    ensures tags.Keys <= RewriteKeys(KeysOf(tags), rows).Keys
    ensures WithKeys(tags, RewriteKeys(KeysOf(tags), rows)) == RewriteTags(tags, rows)
  {
    hide RowOf;
  }

  lemma CoveredAreThere(db: Db, u: UserId, data: Dataset)
    requires CoversAll(db, u, data)
    ensures forall r | r in data.categories :: r.id in db.categories
    ensures forall r | r in data.tags :: r.id in KeysOf(db.tags)
    ensures forall r | r in data.groups :: r.id in db.groups
    ensures forall r | r in data.events :: r.id in db.events
  {
  }

  method CheckAllIds(db: Db, u: UserId, data: Dataset) returns (ok: bool)
    ensures ok <==> CoversAll(db, u, data)
  {
    hide Covers;
    ok := CheckIdSetMatches(CategoriesOf(db.categories, u), data.categories);
    if ok {
      ok := CheckIdSetMatches(TagsOf(db, u), data.tags);
    }
    if ok {
      ok := CheckIdSetMatches(GroupsOf(db, u), data.groups);
    }
    if ok {
      ok := CheckIdSetMatches(EventsOf(db.events, u), data.events);
    }
  }

  // The transaction: nothing is replaced unless the direction is a change, the payload covers
  // the stored rows and every row could be rewritten
  method SwapRows(k: Cipher, db: Db, u: UserId, enable: bool, keyCheck: Option<string>,
                  data: Dataset) returns (next: Db, outcome: Outcome)
    requires Sound(k) && Modes(k, db) && Aggregate(db) && DataMode(k, enable, u, StoredData(k, u, enable, data))
    ensures (next, outcome) == Swap(db, u, enable, keyCheck, StoredData(k, u, enable, data))
  {
    hide Sound, Modes, Aggregate, DataMode, CoversAll, RowByRow, NoCollapse, TagNamesUnique, KeysUnique,
      RewriteCategories, RewriteTags, RewriteKeys, RewriteEvents, StoredRows, KeysOf, WithKeys;
    ghost var stored := StoredData(k, u, enable, data);
    DataCoverAlike(k, db, u, enable, data);
    if E2ee(db, u) == enable {
      return db, Conflict;
    }
    var covered := CheckAllIds(db, u, data);
    if !covered {
      return db, Conflict;
    }
    CoveredAreThere(db, u, data);
    SwapConflictsExactlyOnCollapse(k, db, u, enable, keyCheck, stored);
    SwapRewrites(db, u, enable, keyCheck, stored);
    StoredByTable(k, u, enable, data);
    var categories := RewriteCategoryRows(k, u, enable, db.categories, data.categories);
    var keys := RewriteKeyRows(k, u, enable, KeysOf(db.tags), data.tags);
    if keys.None? {
      return db, Conflict;
    }
    RewrittenWithKeys(db.tags, stored.tags);
    var groups := RewriteKeyRows(k, u, enable, db.groups, data.groups);
    if groups.None? {
      return db, Conflict;
    }
    var events := RewriteEventRows(k, u, enable, db.events, data.events);
    next := db.(categories := categories, tags := WithKeys(db.tags, keys.value), groups := groups.value, events :=
        events,
                users := db.users[u := User(enable, keyCheck)]);
    return next, Done(u);
  }

  lemma StoredByTable(k: Cipher, u: UserId, enable: bool, data: Dataset)
    ensures var stored := StoredData(k, u, enable, data);
            && stored.categories == StoredRows(k, u, enable, data.categories)
                && stored.tags == StoredRows(k, u, enable, data.tags)
            && stored.groups == StoredRows(k, u, enable, data.groups)
                && stored.events == StoredRows(k, u, enable, data.events)
  {
  }

  // What Swap comes to, table by table
  lemma SwapRewrites(db: Db, u: UserId, enable: bool, keyCheck: Option<string>, data: Dataset)
    requires E2ee(db, u) != enable && CoversAll(db, u, data)
    ensures var (next, outcome) := Swap(db, u, enable, keyCheck, data);
            if outcome.Done? then
              outcome == Done(u)
              && next == Db(db.users[u := User(enable, keyCheck)], RewriteCategories(db.categories, data.categories),
                            RewriteTags(db.tags, data.tags), RewriteKeys(db.groups, data.groups), db.members,
                            RewriteEvents(db.events, data.events), db.links)
            else (next, outcome) == (db, Conflict)
  {
  }
}
