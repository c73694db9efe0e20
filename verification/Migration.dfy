/**
 Turning end-to-end encryption on or off: the user's whole dataset is rewritten row by row
 and the flag is flipped, in one transaction.
 */
module Migration {
  import opened Collections
  import opened Options
  import opened Encryption
  import opened Text
  import opened Catalog

  // One stored value coming from the client; categories and events carry no index
  datatype Row = Row(id: Id, value: string, index: Option<string>)

  datatype Dataset = Dataset(categories: seq<Row>, tags: seq<Row>, groups: seq<Row>, events: seq<Row>)

  // ---- The service ----

  predicate IsEncrypted(row: Row) {
    IsBlob(row.value) && row.index.Some? && IsIndex(row.index.value)
  }

  // The client may only send shapes it could have encrypted; an omitted description stays empty
  predicate ShapesOk(data: Dataset) {
    && (forall r | r in data.categories :: IsBlob(r.value))
    && (forall r | r in data.tags :: IsEncrypted(r))
    && (forall r | r in data.groups :: IsEncrypted(r))
    && (forall r | r in data.events :: r.value == "" || IsBlob(r.value))
  }

  predicate NoBlanks(a: Alphabet, rows: seq<Row>) {
    forall r | r in rows :: !IsBlank(a, r.value)
  }

  function NormalRow(a: Alphabet, r: Row): Row {
    Row(r.id, TitleCase(a, r.value), None)
  }

  function MapRows(rows: seq<Row>, f: Row -> Row): (mapped: seq<Row>)
    ensures |mapped| == |rows| && forall i | 0 <= i < |rows| :: mapped[i] == f(rows[i])
  {
    seq(|rows|, i requires 0 <= i < |rows| => f(rows[i]))
  }

  // What comes back in the clear is normalised again, and its indexes are dropped
  function Normal(a: Alphabet, data: Dataset): Dataset {
    Dataset(MapRows(data.categories, r => NormalRow(a, r)), MapRows(data.tags, r => NormalRow(a, r)),
            MapRows(data.groups, r => NormalRow(a, r)), data.events)
  }

  function AtRestRows(k: Cipher, u: UserId, rows: seq<Row>): seq<Row> {
    MapRows(rows, (r: Row) => r.(value := k.enc(u, r.value)))
  }

  function AtRestData(k: Cipher, u: UserId, data: Dataset): Dataset {
    Dataset(AtRestRows(k, u, data.categories), AtRestRows(k, u, data.tags), AtRestRows(k, u, data.groups),
            AtRestRows(k, u, data.events))
  }

  // ---- The transaction ----

  predicate NoDuplicates(rows: seq<Row>) {
    DistinctBy(rows, (r: Row) => r.id)
  }

  predicate Names(rows: seq<Row>, id: Id) {
    exists r | r in rows :: r.id == id
  }

  // The payload names the stored rows, all of them and each once
  predicate Covers(rows: seq<Row>, stored: set<Id>) {
    && NoDuplicates(rows)
    && (forall r | r in rows :: r.id in stored)
    && (forall id | id in stored :: Names(rows, id))
  }

  function TagsOf(db: Db, u: UserId): set<Id> {
    set t | t in db.tags && OwnsTag(db.categories, db.tags, u, t)
  }

  function GroupsOf(db: Db, u: UserId): set<Id> {
    set g | g in db.groups && OwnsGroup(db, u, g)
  }

  predicate CoversAll(db: Db, u: UserId, data: Dataset) {
    && Covers(data.categories, CategoriesOf(db.categories, u))
    && Covers(data.tags, TagsOf(db, u))
    && Covers(data.groups, GroupsOf(db, u))
    && Covers(data.events, EventsOf(db.events, u))
  }

  // The row the payload has for an id
  function RowOf(rows: seq<Row>, id: Id): Option<Row>
    decreases |rows|
  {
    if rows == [] then None
    else if rows[|rows| - 1].id == id then Some(rows[|rows| - 1])
    else RowOf(rows[..|rows| - 1], id)
  }

  function RewriteKey(key: Key, row: Option<Row>): Key {
    if row.Some? then key.(name := row.value.value, index := row.value.index) else key
  }

  function RewriteKeys(keys: map<Id, Key>, rows: seq<Row>): map<Id, Key> {
    map k | k in keys :: RewriteKey(keys[k], RowOf(rows, k))
  }

  function RewriteTags(tags: map<Id, Tag>, rows: seq<Row>): map<Id, Tag> {
    map t | t in tags :: tags[t].(key := RewriteKey(tags[t].key, RowOf(rows, t)))
  }

  function RewriteCategories(categories: map<Id, Category>, rows: seq<Row>): map<Id, Category> {
    map c | c in categories ::
      if RowOf(rows, c).Some? then categories[c].(name := RowOf(rows, c).value.value) else categories[c]
  }

  function RewriteEvents(events: map<Id, Event>, rows: seq<Row>): map<Id, Event> {
    map e | e in events ::
      if RowOf(rows, e).Some? then events[e].(description := RowOf(rows, e).value.value) else events[e]
  }

  function Rewrite(db: Db, data: Dataset): Db {
    db.(categories := RewriteCategories(db.categories, data.categories), tags := RewriteTags(db.tags, data.tags),
        groups := RewriteKeys(db.groups, data.groups), events := RewriteEvents(db.events, data.events))
  }

  // All or nothing: the direction must be a change, the payload must cover the stored rows,
  // and no two names may end up the same
  function Swap(db: Db, u: UserId, enable: bool, keyCheck: Option<string>, data: Dataset): (Db, Outcome) {
    if E2ee(db, u) == enable || !CoversAll(db, u, data) then (db, Conflict)
    else
      var next := Rewrite(db, data);
      if !TagNamesUnique(next.tags) || !KeysUnique(next.groups) then (db, Conflict)
      else (next.(users := next.users[u := User(enable, keyCheck)]), Done(u))
  }

  function Enable(db: Db, u: UserId, keyCheck: string, data: Dataset): (Db, Outcome) {
    if !IsKeyCheck(keyCheck) || !ShapesOk(data) then (db, BadRequest)
    else Swap(db, u, true, Some(keyCheck), data)
  }

  function Disable(env: Env, db: Db, u: UserId, data: Dataset): (Db, Outcome) {
    if !NoBlanks(env.alphabet, data.categories) || !NoBlanks(env.alphabet, data.tags)
        || !NoBlanks(env.alphabet, data.groups)
    then (db, BadRequest)
    else Swap(db, u, false, None, AtRestData(env.cipher, u, Normal(env.alphabet, data)))
  }

  // ---- The payload as a map ----

  lemma {:induction false} RowOfIsNamed(rows: seq<Row>, id: Id)
    ensures RowOf(rows, id).Some? <==> Names(rows, id)
    ensures RowOf(rows, id).Some? ==> RowOf(rows, id).value in rows && RowOf(rows, id).value.id == id
    decreases |rows|
  {
    if rows != [] {
      var n := |rows| - 1;
      RowOfIsNamed(rows[..n], id);
      assert forall r :: r in rows <==> r in rows[..n] || r == rows[n];
    }
  }

  lemma RowOfRow(rows: seq<Row>, r: Row)
    requires NoDuplicates(rows) && r in rows
    ensures RowOf(rows, r.id) == Some(r)
  {
    RowOfIsNamed(rows, r.id);
    assert Names(rows, r.id);
    var s := RowOf(rows, r.id).value;
    var i :| 0 <= i < |rows| && rows[i] == r;
    var j :| 0 <= j < |rows| && rows[j] == s;
  }

  // The order of the rows does not matter
  lemma OrderIsIrrelevant(rows: seq<Row>, others: seq<Row>, id: Id)
    requires NoDuplicates(rows) && NoDuplicates(others) && forall r :: r in rows <==> r in others
    ensures RowOf(rows, id) == RowOf(others, id)
  {
    RowOfIsNamed(rows, id);
    RowOfIsNamed(others, id);
    if RowOf(rows, id).Some? {
      RowOfRow(others, RowOf(rows, id).value);
    } else if Names(others, id) {
      assert Names(rows, id);
    }
  }

  lemma SameIdsCover(rows: seq<Row>, mapped: seq<Row>, stored: set<Id>)
    requires Covers(rows, stored) && |mapped| == |rows| && forall i | 0 <= i < |rows| :: mapped[i].id == rows[i].id
    ensures Covers(mapped, stored)
  {
    forall id | id in stored
      ensures Names(mapped, id)
    {
      assert Names(rows, id);
      var i :| 0 <= i < |rows| && rows[i].id == id;
      assert mapped[i] in mapped;
    }
  }

  // ---- Row by row ----

  // Another row of the category has the name or the index
  predicate Taken(keys: map<Id, Key>, id: Id)
    requires id in keys
  {
    exists k | k in keys :: k != id && Clash(keys[k], keys[id])
  }

  lemma OneMoreRow(keys: map<Id, Key>, rows: seq<Row>)
    requires rows != [] && rows[|rows| - 1].id in keys
    ensures var last := rows[|rows| - 1];
            var before := RewriteKeys(keys, rows[..|rows| - 1]);
            RewriteKeys(keys, rows) == before[last.id := RewriteKey(before[last.id], Some(last))]
  {
  }

  // The updates as the transaction makes them: the first one to hit a unique key stops it
  function RowByRow(keys: map<Id, Key>, rows: seq<Row>): (result: Option<map<Id, Key>>)
    requires forall r | r in rows :: r.id in keys
    ensures result.Some? ==> result.value == RewriteKeys(keys, rows)
    decreases |rows|
  {
    if rows == [] then
      assert RewriteKeys(keys, rows) == keys;
      Some(keys)
    else
      var n := |rows| - 1;
      var before := RowByRow(keys, rows[..n]);
      if before.None? then None
      else
        var id := rows[n].id;
        OneMoreRow(keys, rows);
        var after := before.value[id := RewriteKey(before.value[id], Some(rows[n]))];
        if Taken(after, id) then None else Some(after)
  }

  // Two payload rows of one category on one value or one index
  predicate Collapse(keys: map<Id, Key>, a: Row, b: Row)
    requires a.id in keys && b.id in keys
  {
    keys[a.id].category == keys[b.id].category && (a.value == b.value || (a.index.Some? && a.index == b.index))
  }

  predicate NoCollapse(keys: map<Id, Key>, rows: seq<Row>)
    requires forall r | r in rows :: r.id in keys
  {
    forall i, j | 0 <= i < j < |rows| :: !Collapse(keys, rows[i], rows[j])
  }

  // No stored row of a category has the value or the index of a row of the payload there
  predicate ApartFromStored(keys: map<Id, Key>, rows: seq<Row>)
    requires forall r | r in rows :: r.id in keys
  {
    forall k, r | k in keys && r in rows && keys[k].category == keys[r.id].category ::
      keys[k].name != r.value && (r.index.Some? ==> keys[k].index != r.index)
  }

  lemma Rewritten(keys: map<Id, Key>, rows: seq<Row>, r: Row)
    requires r.id in keys && NoDuplicates(rows) && r in rows
    ensures RewriteKeys(keys, rows)[r.id] == keys[r.id].(name := r.value, index := r.index)
  {
    RowOfRow(rows, r);
  }

  lemma RewrittenClash(keys: map<Id, Key>, rows: seq<Row>, a: Row, b: Row)
    requires a.id in keys && b.id in keys && NoDuplicates(rows) && a in rows && b in rows
    ensures var after := RewriteKeys(keys, rows); Clash(after[a.id], after[b.id]) <==> Collapse(keys, a, b)
  {
    Rewritten(keys, rows, a);
    Rewritten(keys, rows, b);
  }

  lemma StoredNeverClashes(keys: map<Id, Key>, rows: seq<Row>, all: seq<Row>, k: Id, r: Row)
    requires (forall s | s in all :: s.id in keys) && ApartFromStored(keys, all)
    requires NoDuplicates(rows) && r in rows && r in all && k in keys && !Names(rows, k)
    ensures var after := RewriteKeys(keys, rows); !Clash(after[k], after[r.id])
  {
    RowOfIsNamed(rows, k);
    Rewritten(keys, rows, r);
  }

  lemma NewRowTaken(keys: map<Id, Key>, rows: seq<Row>, n: nat)
    requires n < |rows| && (forall r | r in rows :: r.id in keys) && NoDuplicates(rows) && ApartFromStored(keys, rows)
    ensures Taken(RewriteKeys(keys, rows[..n + 1]), rows[n].id)
            <==> exists i | 0 <= i < n :: Collapse(keys, rows[i], rows[n])
  {
    var done := rows[..n + 1];
    var after := RewriteKeys(keys, done);
    var id := rows[n].id;
    assert rows[n] in done && rows[n] in rows && NoDuplicates(done);
    hide ApartFromStored, RewriteKeys, Clash, Collapse;
    if Taken(after, id) {
      var k :| k in after && k != id && Clash(after[k], after[id]);
      if !Names(done, k) {
        StoredNeverClashes(keys, done, rows, k, rows[n]);
        assert false;
      }
      var i :| 0 <= i < |done| && done[i].id == k;
      RewrittenClash(keys, done, rows[i], rows[n]);
    }
    if i :| 0 <= i < n && Collapse(keys, rows[i], rows[n]) {
      assert done[i] == rows[i];
      RewrittenClash(keys, done, rows[i], rows[n]);
      assert rows[i].id != id && rows[i].id in after;
    }
  }

  lemma NoCollapseOneMore(keys: map<Id, Key>, rows: seq<Row>)
    requires (forall r | r in rows :: r.id in keys) && rows != []
    ensures var n := |rows| - 1;
            NoCollapse(keys, rows) <==> NoCollapse(keys, rows[..n]) && forall i | 0 <= i < n ::
                !Collapse(keys, rows[i], rows[n])
  {
    hide Collapse;
  }

  lemma RowByRowOneMore(keys: map<Id, Key>, rows: seq<Row>)
    requires (forall r | r in rows :: r.id in keys) && rows != []
    ensures (forall r | r in rows[..|rows| - 1] :: r.id in keys) && rows[|rows| - 1].id in RewriteKeys(keys, rows)
    ensures RowByRow(keys, rows).Some? <==>
              RowByRow(keys, rows[..|rows| - 1]).Some? && !Taken(RewriteKeys(keys, rows), rows[|rows| - 1].id)
  {
    OneMoreRow(keys, rows);
    hide Taken;
  }

  lemma OneRowLess(keys: map<Id, Key>, rows: seq<Row>)
    requires (forall r | r in rows :: r.id in keys) && NoDuplicates(rows) && ApartFromStored(keys, rows) && rows != []
    ensures var fewer := rows[..|rows| - 1];
            (forall r | r in fewer :: r.id in keys) && NoDuplicates(fewer) && ApartFromStored(keys, fewer)
  {
    assert forall r | r in rows[..|rows| - 1] :: r in rows;
  }

  // Whatever their order, the updates go through exactly when no two rows collapse
  lemma {:induction false} RowByRowConflicts(keys: map<Id, Key>, rows: seq<Row>)
    requires (forall r | r in rows :: r.id in keys) && NoDuplicates(rows) && ApartFromStored(keys, rows)
    ensures RowByRow(keys, rows).Some? <==> NoCollapse(keys, rows)
    decreases |rows|
  {
    if rows != [] {
      hide ApartFromStored, NoCollapse, Collapse, NoDuplicates, RewriteKeys, Taken, RowByRow;
      OneRowLess(keys, rows);
      RowByRowConflicts(keys, rows[..|rows| - 1]);
      RowByRowOneMore(keys, rows);
      NewRowTaken(keys, rows, |rows| - 1);
      NoCollapseOneMore(keys, rows);
      assert rows[..|rows| - 1 + 1] == rows;
    }
  }
}
