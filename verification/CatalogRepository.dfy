/**
 The use cases as they run: the checks of the services, then the statements of each
 transaction on copies of the tables, which replace the tables only when all went through.
 */
module CatalogRepository {
  import opened Collections
  import opened Options
  import opened Encryption
  import opened Text
  import opened Catalog
  import opened CatalogInvariant
  import opened CatalogEvents
  import opened CatalogModes
  import opened Migration
  import opened MigrationRun
  import opened MigrationTheorems
  import opened EventWrites
  import CatalogRuns
  import DateTags
  import Search

  // ---- The unique keys, statement by statement ----

  // Another row of the category has the name or the index
  predicate KeyTaken(tags: map<Id, Tag>, id: Id): (taken: bool)
    requires id in tags
    ensures taken <==> exists t | t in tags :: t != id && Clash(tags[t].key, tags[id].key)
  {
    assert forall t | t in tags :: t in KeysOf(tags) && KeysOf(tags)[t] == tags[t].key;
    Taken(KeysOf(tags), id)
  }

  predicate AnyTaken(tags: map<Id, Tag>, ids: set<Id>)
    requires ids <= tags.Keys
  {
    exists t | t in ids :: KeyTaken(tags, t)
  }

  lemma PutChecks(tags: map<Id, Tag>, id: Id, tag: Tag)
    requires TagNamesUnique(tags)
    ensures KeyTaken(tags[id := tag], id) <==> !TagNamesUnique(tags[id := tag])
  {
    var next := tags[id := tag];
    if !TagNamesUnique(next) {
      var a, b :| a in next && b in next && a != b && Clash(next[a].key, next[b].key);
      assert a == id || b == id;
    }
  }

  function Follow(tags: map<Id, Tag>, id: Id, category: Id): map<Id, Tag> {
    map t | t in tags :: if tags[t].parent == Some(id) then tags[t].(key := tags[t].key.(category := category))
        else tags[t]
  }

  function Followers(tags: map<Id, Tag>, id: Id): set<Id> {
    set t | t in tags && tags[t].parent == Some(id)
  }

  lemma TakenFinally(tags: map<Id, Tag>, id: Id, tag: Tag)
    requires TagsOkFor(tags, id) && id in tags && KeyTaken(tags[id := tag], id) && tag.parent != Some(id)
    ensures !TagNamesUnique(Retag(tags, id, tag))
  {
    var mid, final := tags[id := tag], Retag(tags, id, tag);
    var t :| t in mid && t != id && Clash(mid[t].key, mid[id].key);
    assert final[t] == mid[t] && final[id] == tag;
  }

  // The synonyms of a tag are where the tag is
  ghost predicate TagsOkFor(tags: map<Id, Tag>, id: Id) {
    forall t | t in tags && tags[t].parent == Some(id) :: id in tags && tags[t].key.category == tags[id].key.category
  }

  // Checking the row first and its followers next is checking the tags as they end up
  lemma StatementsCheckFinalState(tags: map<Id, Tag>, id: Id, tag: Tag)
    requires TagNamesUnique(tags) && TagsOkFor(tags, id) && id in tags && tag.parent != Some(id)
             && tags[id].parent != Some(id)
    ensures tag.parent.Some? ==> (tags[id := tag] == Retag(tags, id, tag))
    ensures tag.parent.None? ==> Follow(tags[id := tag], id, tag.key.category) == Retag(tags, id, tag)
    ensures TagNamesUnique(Retag(tags, id, tag)) <==>
              !KeyTaken(tags[id := tag], id)
                  && (tag.parent.None? ==> !AnyTaken(Retag(tags, id, tag), Followers(tags, id)))
  {
    var mid, final := tags[id := tag], Retag(tags, id, tag);
    if KeyTaken(mid, id) {
      TakenFinally(tags, id, tag);
    } else if !TagNamesUnique(final) {
      var a, b :| a in final && b in final && a != b && Clash(final[a].key, final[b].key);
      FinalClashIsSeen(tags, id, tag, a, b);
    }
  }

  lemma FinalClashIsSeen(tags: map<Id, Tag>, id: Id, tag: Tag, a: Id, b: Id)
    requires TagNamesUnique(tags) && id in tags && a in tags && b in tags && a != b && !KeyTaken(tags[id := tag], id)
    requires Clash(Retag(tags, id, tag)[a].key, Retag(tags, id, tag)[b].key)
    ensures tag.parent.None? && AnyTaken(Retag(tags, id, tag), Followers(tags, id))
  {
    var mid, final := tags[id := tag], Retag(tags, id, tag);
    forall t | t in tags && !(tag.parent.None? && t in Followers(tags, id))
      ensures final[t] == mid[t]
    {
    }
    assert a != id && b != id ==> !Clash(tags[a].key, tags[b].key);
    if tag.parent.None? && a in Followers(tags, id) {
      assert KeyTaken(final, a);
    } else if tag.parent.None? && b in Followers(tags, id) {
      assert KeyTaken(final, b);
    }
  }

  // ---- Checks ----

  predicate MainTagIn(tags: map<Id, Tag>, t: Id, c: Id) {
    t in tags && tags[t].parent.None? && tags[t].key.category == c
  }

  method CheckMainTagsInCategory(db: Db, tagsId: seq<Id>, c: Id, u: UserId) returns (ok: bool)
    requires OwnsCategory(db, u, c)
    ensures ok <==> forall t | t in tagsId :: MainTagIn(db.tags, t, c)
  {
    if |tagsId| == 0 {
      return true;
    }
    var ids := set t | t in tagsId;
    var matching := set t | t in db.tags && t in ids && MainTagIn(db.tags, t, c) && OwnsCategory(db, u, c);
    ok := |matching| == |ids|;
    SubsetSize(matching, ids);
    assert matching == ids <==> forall t | t in tagsId :: MainTagIn(db.tags, t, c) by {
      if matching == ids {
        forall t | t in tagsId
          ensures MainTagIn(db.tags, t, c)
        {
          assert t in matching;
        }
      }
    }
  }

  // The members a client sent, each once
  method DistinctMembers(sent: seq<Id>) returns (members: seq<Id>)
    ensures forall t :: t in members <==> t in sent
    ensures forall i, j | 0 <= i < j < |members| :: members[i] != members[j]
  {
    members := [];
    var seen: set<Id> := {};
    for i := 0 to |sent|
      invariant forall t :: t in seen <==> t in members
      invariant forall t :: t in members <==> t in sent[..i]
      invariant forall j, k | 0 <= j < k < |members| :: members[j] != members[k]
    {
      assert sent[..i + 1] == sent[..i] + [sent[i]];
      if sent[i] !in seen {
        seen := seen + {sent[i]};
        members := members + [sent[i]];
      }
    }
    assert sent[..|sent|] == sent;
  }

  // The links of a synonym but for the events its parent is linked to already
  function Unlinked(links: set<Link>, id: Id, parent: Id): set<Link> {
    set l | l in links && !(l.tag == id && exists m | m in links :: m.tag == parent && m.event == l.event)
  }

  // The events the derived table of the DELETE selects for a synonym group
  function DoomedByGroup(db: Db, u: UserId, id: Id): set<Id> {
    set e | e in db.events && db.events[e].user == u && exists l | l in db.links ::
        l.event == e && l.tag in db.tags && Root(db.tags, l.tag) == id
  }

  function DoomedByCategory(db: Db, u: UserId, c: Id): set<Id> {
    set e | e in db.events && db.events[e].user == u
            && exists l | l in db.links :: l.event == e && l.tag in db.tags && db.tags[l.tag].key.category == c
  }

  lemma DoomedByStatement(db: Db, u: UserId, id: Id)
    ensures DoomedByGroup(db, u, id) == EventsOf(db.events, u) * EventsTagged(db.links, SynonymGroup(db.tags, id))
  {
  }

  lemma DoomedByCategoryStatement(db: Db, u: UserId, c: Id)
    ensures DoomedByCategory(db, u, c) == EventsOf(db.events, u) * EventsTagged(db.links, TagsIn(db.tags, {c}))
  {
  }

  lemma SynonymsAreHere(db: Db, id: Id)
    requires TagsOk(db.categories, db.tags) && id in db.tags
    ensures TagsOkFor(db.tags, id) && db.tags[id].parent != Some(id)
  {
    forall t | t in db.tags && db.tags[t].parent == Some(id)
      ensures db.tags[t].key.category == db.tags[id].key.category
    {
      assert ParentOk(db.tags, t);
    }
    assert ParentOk(db.tags, id);
  }

  // The memberships of a tag in groups of other categories
  function Stray(groups: map<Id, Key>, members: set<Membership>, id: Id, category: Id): set<Membership> {
    set m | m in members && m.tag == id && m.group in groups && groups[m.group].category != category
  }

  // The memberships of a tag in groups of the category that its main tag does not have yet
  function Handed(groups: map<Id, Key>, members: set<Membership>, id: Id, category: Id, parent: Id): set<Membership> {
    set m | m in members && m.tag == id && m.group in groups && groups[m.group].category == category
            && Membership(m.group, parent) !in members :: Membership(m.group, parent)
  }

  function WithoutTag(members: set<Membership>, id: Id): set<Membership> {
    set m | m in members && m.tag != id
  }

  // The membership statements hand over, or drop, what the rule says
  lemma RegroupByStatements(db: Db, id: Id, tag: Tag)
    requires MembersOk(db.tags, db.groups, db.members) && tag.parent != Some(id)
    ensures tag.parent.None? ==>
              Regroup(db.groups, db.members, id, tag)
              == db.members - Stray(db.groups, db.members, id, tag.key.category)
    ensures tag.parent.Some? ==>
              Regroup(db.groups, db.members, id, tag)
              == WithoutTag(db.members + Handed(db.groups, db.members, id, tag.key.category, tag.parent.value), id)
  {
  }

  // Dropping the links the parent has already and repointing the others is repointing all
  lemma RepointByStatements(db: Db, id: Id)
    requires TagsOk(db.categories, db.tags) && LinksOk(db.categories, db.tags, db.events, db.links) && id in db.tags
    ensures db.tags[id].parent.Some? ==>
            var parent := db.tags[id].parent.value;
            Repoint(Unlinked(db.links, id, parent), id, parent) == Repoint(db.links, id, parent)
  {
    assert ParentOk(db.tags, id);
  }

  // ---- Transactions ----

  // UPDATE the row, then its followers, then the memberships; None when a name is taken
  method UpdateTagRows(db: Db, id: Id, tag: Tag) returns (next: Option<Db>)
    requires TagsOk(db.categories, db.tags) && TagNamesUnique(db.tags) && MembersOk(db.tags, db.groups, db.members)
    requires id in db.tags && tag.parent != Some(id)
    ensures next.Some? <==> TagNamesUnique(Retag(db.tags, id, tag))
    ensures next.Some? ==> next.value
                           == db.(tags := Retag(db.tags, id, tag), members := Regroup(db.groups, db.members, id, tag))
  {
    SynonymsAreHere(db, id);
    StatementsCheckFinalState(db.tags, id, tag);
    RegroupByStatements(db, id, tag);
    hide TagsOk, MembersOk, TagNamesUnique, KeyTaken, AnyTaken, Retag, Regroup, Follow, TagsOkFor,
      Stray, Handed, WithoutTag;
    var tags := db.tags[id := tag];
    if KeyTaken(tags, id) {
      return None;
    }
    var members := db.members;
    if tag.parent.None? {
      tags := Follow(tags, id, tag.key.category);
      if AnyTaken(tags, Followers(db.tags, id)) {
        return None;
      }
      members := members - Stray(db.groups, members, id, tag.key.category);
    } else {
      members := members + Handed(db.groups, members, id, tag.key.category, tag.parent.value);
      members := WithoutTag(members, id);
    }
    return Some(db.(tags := tags, members := members));
  }

  // Hand over or delete what hangs on the tag, then DELETE it
  method DeleteTagRows(db: Db, u: UserId, id: Id, deleteEvents: bool) returns (next: Db)
    requires TagsOk(db.categories, db.tags) && LinksOk(db.categories, db.tags, db.events, db.links)
    requires OwnsTag(db.categories, db.tags, u, id) && !IsServerTag(db, u, id)
    ensures (next, Done(id)) == Catalog.DeleteTag(db, u, id, deleteEvents)
  {
    RepointByStatements(db, id);
    DoomedByStatement(db, u, id);
    hide TagsOk, LinksOk, DeleteTags, DeleteEvents, Repoint, EventsTagged, SynonymGroup, EventsOf, IsServerTag,
      Unlinked, DoomedByGroup;
    next := db;
    if db.tags[id].parent.Some? {
      var parent := db.tags[id].parent.value;
      var unlinked := Unlinked(db.links, id, parent);
      next := next.(links := Repoint(unlinked, id, parent));
    } else if deleteEvents {
      next := DeleteEvents(next, DoomedByGroup(db, u, id));
    }
    next := DeleteTags(next, {id});
  }

  lemma MovedNamesChecked(db: Db, c: Id, other: Id)
    requires TagNamesUnique(db.tags) && KeysUnique(db.groups) && c != other
    ensures TagsIn(db.tags, {c}) <= MoveTags(db.tags, c, other).Keys
            && GroupsIn(db.groups, {c}) <= MoveGroups(db.groups, c, other).Keys
    ensures TagNamesUnique(MoveTags(db.tags, c, other))
            <==> !AnyTaken(MoveTags(db.tags, c, other), TagsIn(db.tags, {c}))
    ensures KeysUnique(MoveGroups(db.groups, c, other))
            <==> forall g | g in GroupsIn(db.groups, {c}) :: !Taken(MoveGroups(db.groups, c, other), g)
  {
    var tags, groups := MoveTags(db.tags, c, other), MoveGroups(db.groups, c, other);
    if !AnyTaken(tags, TagsIn(db.tags, {c})) {
      forall a, b | a in tags && b in tags && a != b
        ensures !Clash(tags[a].key, tags[b].key)
      {
        assert !Clash(db.tags[a].key, db.tags[b].key);
        assert a in TagsIn(db.tags, {c}) ==> !KeyTaken(tags, a);
        assert b in TagsIn(db.tags, {c}) ==> !KeyTaken(tags, b);
      }
    }
    if forall g | g in GroupsIn(db.groups, {c}) :: !Taken(groups, g) {
      forall a, b | a in groups && b in groups && a != b
        ensures !Clash(groups[a], groups[b])
      {
        assert !Clash(db.groups[a], db.groups[b]);
        assert a in GroupsIn(db.groups, {c}) ==> !Taken(groups, a);
        assert b in GroupsIn(db.groups, {c}) ==> !Taken(groups, b);
      }
    }
  }

  // Move the tags and the groups, or delete the events, then DELETE the category
  method DeleteCategoryRows(db: Db, u: UserId, c: Id, moveTags: bool, deleteEvents: bool)
    returns (next: Db, outcome: Outcome)
    requires Aggregate(db)
    ensures (next, outcome) == Catalog.DeleteCategory(db, u, c, moveTags, deleteEvents)
  {
    hide CategoriesOk, DefaultsOk, TagsOk, GroupsOk, MembersOk, EventsOk, LinksOk, DeleteCategories, DeleteEvents,
      MoveTags, MoveGroups, TagNamesUnique, KeysUnique, AnyTaken, Taken, HasKind, TagsIn, GroupsIn, EventsTagged,
      EventsOf, DoomedByCategory;
    next := db;
    if c !in db.categories || db.categories[c].user != u {
      return next, NotFound;
    }
    if db.categories[c].locked {
      return next, Forbidden;
    }
    if moveTags {
      if !HasKind(db.categories, u, Other) {
        return next, Failed;
      }
      var other := TheOthers(db, u);
      MovedNamesChecked(db, c, other);
      next := next.(tags := MoveTags(db.tags, c, other));
      if AnyTaken(next.tags, TagsIn(db.tags, {c})) {
        return db, NameTaken;
      }
      next := next.(groups := MoveGroups(db.groups, c, other));
      if exists g | g in GroupsIn(db.groups, {c}) :: Taken(next.groups, g) {
        return db, NameTaken;
      }
    } else if deleteEvents {
      DoomedByCategoryStatement(db, u, c);
      next := DeleteEvents(next, DoomedByCategory(db, u, c));
    }
    next := DeleteCategories(next, {c});
    return next, Done(c);
  }

  // SELECT the user's category of others
  method TheOthers(db: Db, u: UserId) returns (other: Id)
    requires Aggregate(db) && HasKind(db.categories, u, Other)
    ensures other in db.categories && db.categories[other].locked && other == CategoryOfKind(db, u, Other)
  {
    other :| other in db.categories && db.categories[other].user == u && db.categories[other].kind == Other;
    OthersIsOne(db, u, other);
  }

  lemma OthersIsOne(db: Db, u: UserId, c: Id)
    requires Aggregate(db) && IsKind(db, u, Other, c)
    ensures HasKind(db.categories, u, Other) && CategoryOfKind(db, u, Other) == c && db.categories[c].locked
  {
    assert HasKind(db.categories, u, Other);
    var d := CategoryOfKind(db, u, Other);
    assert CategoryOk(db.users, db.categories[c]);
    assert c == d || Apart(db.categories[c], db.categories[d]);
  }

  // INSERT or UPDATE the group, then its members one by one
  method PutGroupRows(db: Db, g: Id, key: Key, sent: seq<Id>) returns (next: Option<Db>)
    requires KeysUnique(db.groups)
    ensures next.Some? <==> KeysUnique(db.groups[g := key])
    ensures next.Some? ==> next.value == PutGroup(db, g, key, sent)
  {
    GroupPutChecks(db.groups, g, key);
    hide KeysUnique, Taken;
    var groups := db.groups[g := key];
    if Taken(groups, g) {
      return None;
    }
    var rows := set m | m in db.members && m.group != g;
    ghost var kept := rows;
    for i := 0 to |sent|
      invariant rows == kept + set t | t in sent[..i] :: Membership(g, t)
    {
      assert sent[..i + 1] == sent[..i] + [sent[i]];
      rows := rows + {Membership(g, sent[i])};
    }
    assert sent[..|sent|] == sent;
    return Some(db.(groups := groups, members := rows));
  }

  lemma GroupPutChecks(groups: map<Id, Key>, g: Id, key: Key)
    requires KeysUnique(groups)
    ensures Taken(groups[g := key], g) <==> !KeysUnique(groups[g := key])
  {
    var next := groups[g := key];
    if !KeysUnique(next) {
      var a, b :| a in next && b in next && a != b && Clash(next[a], next[b]);
      assert a == g || b == g;
    }
  }

  lemma AggregateDefaults(db: Db)
    requires Aggregate(db)
    ensures DefaultsOk(db.users, db.categories)
  {
  }

  lemma PurgeLeaves(env: Env, db: Db, u: UserId, dates: Id, persons: Id, others: Id)
    requires E2ee(db, u)
    ensures var next := Catalog.Purge(env, db, u, dates, persons, others).0;
            EventsOf(next.events, u) == {} && !E2ee(next, u)
                && CategoriesOf(next.categories, u) == {dates, persons, others}
  {
    var bare := DeleteCategories(DeleteEvents(db, EventsOf(db.events, u)), CategoriesOf(db.categories, u));
    assert bare.categories == db.categories - CategoriesOf(db.categories, u);
    assert EventsOf(bare.events, u) == {};
    hide DeleteCategories, DeleteEvents;
  }

  // Nor is a tag or a group of the user left
  lemma PurgeLeavesNoTags(env: Env, db: Db, u: UserId, dates: Id, persons: Id, others: Id)
    requires Aggregate(db) && NewIds(db, dates, persons, others) && E2ee(db, u)
    ensures var next := Catalog.Purge(env, db, u, dates, persons, others).0;
            TagsOf(next, u) == {} && GroupsOf(next, u) == {}
  {
    var bare := DeleteCategories(DeleteEvents(db, EventsOf(db.events, u)), CategoriesOf(db.categories, u));
    PurgeBares(db, u);
    assert NewIds(bare, dates, persons, others);
    BareHasNoTags(env, bare, u, dates, persons, others);
    hide Aggregate, Bare, NewIds, DeleteCategories, DeleteEvents, Register, TagsOf, GroupsOf;
  }

  lemma BareHasNoTags(env: Env, bare: Db, u: UserId, dates: Id, persons: Id, others: Id)
    requires Bare(bare, u) && NewIds(bare, dates, persons, others)
    ensures var next := Catalog.Register(env, bare, u, dates, persons, others).0;
            TagsOf(next, u) == {} && GroupsOf(next, u) == {}
  {
    hide CategoriesOk, HasKind, TagNamesUnique, KeysUnique, MembersOk, EventsOk, LinksOk, ParentOk, Seeds;
  }

  class Database {
    var users: map<UserId, User>
    var categories: map<Id, Category>
    var tags: map<Id, Tag>
    var groups: map<Id, Key>
    var members: set<Membership>
    var events: map<Id, Event>
    var links: set<Link>

    constructor ()
      ensures View() == Db(map[], map[], map[], map[], {}, map[], {})
    {
      users, categories, tags, groups, members, events, links := map[], map[], map[], map[], {}, map[], {};
    }

    function View(): Db
      reads this
    {
      Db(users, categories, tags, groups, members, events, links)
    }

    // The copies replace the tables
    method Commit(next: Db)
      modifies this
      ensures View() == next
    {
      users, categories, tags, groups, members, events, links :=
        next.users, next.categories, next.tags, next.groups, next.members, next.events, next.links;
    }

    // ---- Tags ----

    // Accepts exactly the user's own parents under which the row fits the one level of synonyms
    method ValidateParent(u: UserId, id: Id, req: TagRequest) returns (ok: bool)
      ensures ok <==> ParentAccepted(View(), u, id, req)
      ensures forall key: Key | key.category == req.category ::
                ok <==> (req.parent.Some? ==> OwnsTag(categories, tags, u, req.parent.value))
                        && ParentOk(tags[id := Tag(key, req.parent)], id)
    {
      if req.parent.None? {
        return true;
      }
      if req.parent.value == id {
        return false;
      }
      if !OwnsTag(categories, tags, u, req.parent.value) {
        return false;
      }
      var parent := tags[req.parent.value];
      if parent.parent.Some? {
        return false;
      }
      if parent.key.category != req.category {
        return false;
      }
      return true;
    }

    // The tag to store, if the request is accepted
    method ValidateTag(env: Env, u: UserId, id: Id, req: TagRequest) returns (tag: Option<Tag>)
      ensures tag.Some? <==> TagAccepted(env, View(), u, id, req)
      ensures tag.Some? ==> tag.value == StoredTag(env, View(), u, req)
    {
      if req.category !in categories || categories[req.category].user != u {
        return None;
      }
      if E2ee(View(), u) {
        if !IsBlob(req.name) {
          return None;
        }
        if req.index.None? || !IsIndex(req.index.value) {
          return None;
        }
        var ok := ValidateParent(u, id, req);
        return if ok then Some(Tag(Key(req.category, req.name, req.index), req.parent)) else None;
      }
      if categories[req.category].kind == Date {
        return None;
      }
      var normal := TitleCaseRunes(env.alphabet, req.name);
      if IsReserved(normal) {
        return None;
      }
      var ok := ValidateParent(u, id, req);
      return if ok then Some(Tag(Key(req.category, env.cipher.enc(u, normal), None), req.parent)) else None;
    }

    method CreateTag(env: Env, u: UserId, id: Id, req: TagRequest) returns (outcome: Outcome)
      requires Aggregate(View()) && id !in tags
      modifies this
      ensures (View(), outcome) == Catalog.CreateTag(env, old(View()), u, id, req)
    {
      var tag := ValidateTag(env, u, req.sentId, req);
      if tag.None? {
        return BadRequest;
      }
      PutChecks(tags, id, tag.value);
      var inserted := tags[id := tag.value];
      if KeyTaken(inserted, id) {
        return NameTaken;
      }
      tags := inserted;
      return Done(id);
    }

    method UpdateTag(env: Env, u: UserId, id: Id, req: TagRequest) returns (outcome: Outcome)
      requires Aggregate(View())
      modifies this
      ensures (View(), outcome) == Catalog.UpdateTag(env, old(View()), u, id, req)
    {
      if !OwnsTag(categories, tags, u, id) {
        return BadRequest;
      }
      if !E2ee(View(), u) && categories[tags[id].key.category].kind == Date {
        return Forbidden;
      }
      if req.parent.Some? && HasSynonyms(tags, id) {
        return BadRequest;
      }
      var tag := ValidateTag(env, u, id, req);
      if tag.None? {
        return BadRequest;
      }
      hide TagNamesUnique, Retag, Regroup, NameToStore, IndexAccepted, TagsOk, CategoriesOk, DefaultsOk, MembersOk,
        LinksOk, EventsOk;
      var next := UpdateTagRows(View(), id, tag.value);
      if next.None? {
        return NameTaken;
      }
      Commit(next.value);
      return Done(id);
    }

    method DeleteTag(u: UserId, id: Id, deleteEvents: bool) returns (outcome: Outcome)
      requires Aggregate(View())
      modifies this
      ensures (View(), outcome) == Catalog.DeleteTag(old(View()), u, id, deleteEvents)
    {
      if !OwnsTag(categories, tags, u, id) {
        return BadRequest;
      }
      if !E2ee(View(), u) && categories[tags[id].key.category].kind == Date {
        return Forbidden;
      }
      hide TagNamesUnique, TagsOk, CategoriesOk, DefaultsOk, MembersOk, LinksOk, EventsOk, DeleteTags, DeleteEvents,
        Repoint;
      var next := DeleteTagRows(View(), u, id, deleteEvents);
      Commit(next);
      return Done(id);
    }

    // ---- Categories ----

    method CreateCategory(env: Env, u: UserId, id: Id, req: CategoryRequest) returns (outcome: Outcome)
      requires Aggregate(View()) && id !in categories
      modifies this
      ensures (View(), outcome) == Catalog.CreateCategory(env, old(View()), u, id, req)
    {
      hide Aggregate, CategoryCreated, CategoryName;
      if req.clientId.Some? {
        var found := FindCategoryByClientId(u, req.clientId);
        if found.Some? {
          return Replayed(found.value);
        }
      }
      NoneWithoutClientId(View(), u, req.clientId);
      var name := StoreCategoryName(env, u, req.name);
      if name.None? {
        return BadRequest;
      }
      categories := categories[id := Category(u, Custom, false, name.value, req.clientId)];
      return Done(id);
    }

    method FindCategoryByClientId(u: UserId, clientId: Option<string>) returns (found: Option<Id>)
      requires Aggregate(View()) && clientId.Some?
      ensures found.Some? ==> CategoryCreated(View(), u, clientId, found.value)
                              && forall c | CategoryCreated(View(), u, clientId, c) :: c == found.value
      ensures found.None? ==> forall c :: !CategoryCreated(View(), u, clientId, c)
    {
      if c :| c in categories && categories[c].user == u && categories[c].clientId == clientId {
        assert CategoryCreated(View(), u, clientId, c);
        ReplayedIsOne(View(), u, clientId, c);
        return Some(c);
      }
      return None;
    }

    method StoreCategoryName(env: Env, u: UserId, name: string) returns (stored: Option<string>)
      ensures stored == CategoryName(env, View(), u, name)
    {
      if E2ee(View(), u) {
        if !IsBlob(name) {
          return None;
        }
        return Some(name);
      }
      var normal := TitleCaseRunes(env.alphabet, name);
      return Some(env.cipher.enc(u, normal));
    }

    method UpdateCategory(env: Env, u: UserId, c: Id, name: string) returns (outcome: Outcome)
      modifies this
      ensures (View(), outcome) == Catalog.UpdateCategory(env, old(View()), u, c, name)
      ensures old(Aggregate(View())) ==> Aggregate(View())
      ensures Sound(env.cipher) && old(Modes(env.cipher, View())) ==> Modes(env.cipher, View())
    {
      hide Aggregate, Modes, Sound;
      ghost var db := View();
      if Aggregate(db) {
        UpdateCategoryKeeps(env, db, u, c, name);
      }
      if Sound(env.cipher) && Modes(env.cipher, db) {
        UpdateCategoryKeepsModes(env, db, u, c, name);
      }
      if c !in categories || categories[c].user != u {
        return NotFound;
      }
      if categories[c].locked {
        return Forbidden;
      }
      var stored := StoreCategoryName(env, u, name);
      if stored.None? {
        return BadRequest;
      }
      categories := categories[c := categories[c].(name := stored.value)];
      return Done(c);
    }

    method DeleteCategory(u: UserId, c: Id, moveTags: bool, deleteEvents: bool) returns (outcome: Outcome)
      requires Aggregate(View())
      modifies this
      ensures (View(), outcome) == Catalog.DeleteCategory(old(View()), u, c, moveTags, deleteEvents)
    {
      hide *;
      var next: Db;
      next, outcome := DeleteCategoryRows(View(), u, c, moveTags, deleteEvents);
      Commit(next);
    }

    // ---- Tag groups ----

    // The name to store, if the request is accepted for the category
    method ValidateGroup(env: Env, u: UserId, c: Id, req: GroupRequest) returns (key: Option<Key>, sent: seq<Id>)
      ensures key.Some? <==> GroupAccepted(env, View(), u, c, req)
      ensures key.Some? ==> key.value == StoredGroup(env, View(), u, c, req) && forall t :: t in sent
                                                                                            <==> t in req.members
    {
      sent := [];
      if c !in categories || categories[c].user != u || categories[c].kind == Date {
        return None, sent;
      }
      sent := DistinctMembers(req.members);
      assert req.members != [] ==> req.members[0] in sent;
      if |sent| == 0 {
        return None, sent;
      }
      assert sent[0] in sent;
      var ok := CheckMainTagsInCategory(View(), sent, c, u);
      assert ok <==> forall t | t in req.members :: MainTagIn(tags, t, c);
      if !ok {
        return None, sent;
      }
      hide IsBlob, IsIndex, IsReserved;
      if E2ee(View(), u) {
        if !IsBlob(req.name) || req.index.None? || !IsIndex(req.index.value) {
          return None, sent;
        }
        return Some(Key(c, req.name, req.index)), sent;
      }
      var normal := TitleCaseRunes(env.alphabet, req.name);
      if IsReserved(normal) {
        return None, sent;
      }
      return Some(Key(c, env.cipher.enc(u, normal), None)), sent;
    }

    method CreateGroup(env: Env, u: UserId, id: Id, c: Id, req: GroupRequest) returns (outcome: Outcome)
      requires Aggregate(View())
      modifies this
      ensures (View(), outcome) == Catalog.CreateGroup(env, old(View()), u, id, c, req)
    {
      var key, sent := ValidateGroup(env, u, c, req);
      if key.None? {
        return BadRequest;
      }
      SameMembers(View(), id, key.value, sent, req.members);
      hide KeysUnique, PutGroup, GroupAccepted, StoredGroup, CategoriesOk, DefaultsOk, TagsOk, TagNamesUnique,
        MembersOk, LinksOk, EventsOk;
      var next := PutGroupRows(View(), id, key.value, sent);
      PutGroupPuts(View(), id, key.value, sent);
      if next.None? {
        return NameTaken;
      }
      Commit(next.value);
      return Done(id);
    }

    // A group stays in its category, whatever the request says
    method UpdateGroup(env: Env, u: UserId, g: Id, req: GroupRequest) returns (outcome: Outcome)
      requires Aggregate(View())
      modifies this
      ensures (View(), outcome) == Catalog.UpdateGroup(env, old(View()), u, g, req)
    {
      if !OwnsGroup(View(), u, g) {
        return BadRequest;
      }
      var key, sent := ValidateGroup(env, u, groups[g].category, req);
      if key.None? {
        return BadRequest;
      }
      SameMembers(View(), g, key.value, sent, req.members);
      hide KeysUnique, PutGroup, GroupAccepted, StoredGroup, CategoriesOk, DefaultsOk, TagsOk, TagNamesUnique,
        MembersOk, LinksOk, EventsOk;
      var next := PutGroupRows(View(), g, key.value, sent);
      PutGroupPuts(View(), g, key.value, sent);
      if next.None? {
        return NameTaken;
      }
      Commit(next.value);
      return Done(g);
    }

    // ---- Events ----

    method FindEventByClientId(u: UserId, clientId: Option<string>) returns (found: Option<Id>)
      requires Aggregate(View()) && clientId.Some?
      ensures found.Some? ==> EventCreated(View(), u, clientId, found.value)
                              && forall e | EventCreated(View(), u, clientId, e) :: e == found.value
      ensures found.None? ==> forall e :: !EventCreated(View(), u, clientId, e)
    {
      if e :| e in events && events[e].user == u && events[e].clientId == clientId {
        assert EventCreated(View(), u, clientId, e);
        CreatedIsOne(View(), u, clientId, e);
        return Some(e);
      }
      return None;
    }

    // The checks before an event is written
    method ValidateEvent(u: UserId, req: EventRequest) returns (ok: bool)
      ensures ok <==> EventAccepted(View(), u, req)
    {
      if !DateTags.PeriodAccepted(req.period) {
        return false;
      }
      ok := CheckTagsBelongToUser(View(), req.tags, u);
      if ok && E2ee(View(), u) {
        ok := req.description == "" || IsBlob(req.description);
      }
    }

    // The date tags of a period, looked up; E2EE clients manage their own
    method PrepareEvent(env: Env, u: UserId, period: DateTags.Period)
      returns (list: seq<DateTag>, ghost names: seq<string>)
      requires Aggregate(View()) && HasKind(categories, u, Date) && DateTags.PeriodAccepted(period)
      ensures list == DateTagsFor(env, View(), u, names) && |list| <= |names| <= DateTags.MAX_DATE_TAGS
      ensures NamesOf(names, period)
    {
      var walked := NamesOfPeriod(period);
      names := walked;
      list := [];
      if !E2ee(View(), u) {
        list := BuildDateTagList(env, View(), u, walked);
      }
    }

    // The insert, and a look for the winner's row if another create came first
    method InsertOrFind(env: Env, u: UserId, e: Id, event: Event, clientTags: seq<Id>, list: seq<DateTag>,
                        ids: seq<Id>, ghost dates: Id)
      returns (outcome: Outcome)
      requires Aggregate(View()) && e !in events && event.user == u
      requires |ids| == |list| && InDates(list, dates) && NewTagIds(View(), ids)
      modifies this
      ensures (forall f :: !EventCreated(old(View()), u, event.clientId, f)) ==>
                (View(), outcome) == WriteEvent(env, old(View()), u, e, event, clientTags, list, ids)
      ensures forall f | EventCreated(old(View()), u, event.clientId, f) ::
                View() == old(View()) && outcome == Replayed(f)
    {
      hide CategoriesOk, DefaultsOk, TagsOk, GroupsOk, MembersOk, EventsOk, LinksOk, TagNamesUnique, KeysUnique,
        WriteEvent, InDates, NewTagIds, EventCreated;
      var next: Db;
      next, outcome := InsertEventRows(env, View(), u, e, event, clientTags, list, ids, dates);
      Commit(next);
      if outcome.DuplicateClientId? {
        CreatedHasClientId(View(), u, event.clientId);
        var found := FindEventByClientId(u, event.clientId);
        outcome := if found.Some? then Replayed(found.value) else DuplicateClientId;
      }
    }

    // There is an id for each date tag a period can have
    method CreateEvent(env: Env, u: UserId, e: Id, req: EventRequest, ids: seq<Id>)
      returns (outcome: Outcome, ghost names: seq<string>)
      requires Aggregate(View()) && u in users && HasKind(categories, u, Date) && e !in events
      requires |ids| >= DateTags.MAX_DATE_TAGS && NewTagIds(View(), ids)
      modifies this
      ensures HasKind(old(View()).categories, u, Date)
      ensures |names| <= |ids|
      ensures EventAccepted(old(View()), u, req) && !outcome.Replayed? ==>
                NamesOf(names, DateTags.Normalised(req.period))
      ensures (View(), outcome)
              == CatalogEvents.CreateEvent(env, old(View()), u, e, req, names, ids[..|names|])
    {
      hide CategoriesOk, DefaultsOk, TagsOk, GroupsOk, MembersOk, EventsOk, LinksOk, TagNamesUnique, KeysUnique,
        HasKind, EventAccepted, WriteEvent, BuildDateTags, EventCreated, NewTagIds, NamesOf;
      names := [];
      if req.clientId.Some? {
        var found := FindEventByClientId(u, req.clientId);
        if found.Some? {
          return Replayed(found.value), names;
        }
      }
      NotCreatedWithoutClientId(View(), u, req.clientId);
      var ok := ValidateEvent(u, req);
      if !ok {
        return BadRequest, names;
      }
      var period := DateTags.Normalised(req.period);
      AcceptedPeriod(View(), u, req);
      var event := Event(u, if E2ee(View(), u) then req.description else env.cipher.enc(u, req.description), period,
                         req.clientId);
      var list;
      list, names := PrepareEvent(env, u, period);
      LookedUpAreOwned(env, View(), u, names);
      PrefixOfNewIds(View(), ids, |list|);
      assert ids[..|names|][..|list|] == ids[..|list|];
      outcome := InsertOrFind(env, u, e, event, req.tags, list, ids[..|list|], CategoryOfKind(View(), u, Date));
    }

    method UpdateEvent(env: Env, u: UserId, e: Id, req: EventRequest, ids: seq<Id>)
      returns (outcome: Outcome, ghost names: seq<string>)
      requires Aggregate(View()) && u in users && HasKind(categories, u, Date)
      requires |ids| >= DateTags.MAX_DATE_TAGS && NewTagIds(View(), ids)
      modifies this
      ensures HasKind(old(View()).categories, u, Date)
      ensures |names| <= |ids|
      ensures EventAccepted(old(View()), u, req) ==> NamesOf(names, DateTags.Normalised(req.period))
      ensures (View(), outcome)
              == CatalogEvents.UpdateEvent(env, old(View()), u, e, req, names, ids[..|names|])
    {
      hide CategoriesOk, DefaultsOk, TagsOk, GroupsOk, MembersOk, EventsOk, LinksOk, TagNamesUnique, KeysUnique,
        HasKind, EventAccepted, RewriteEvent, BuildDateTags, NewTagIds, NamesOf;
      names := [];
      var ok := ValidateEvent(u, req);
      if !ok {
        return BadRequest, names;
      }
      var period := DateTags.Normalised(req.period);
      AcceptedPeriod(View(), u, req);
      var description := if E2ee(View(), u) then req.description else env.cipher.enc(u, req.description);
      var list;
      list, names := PrepareEvent(env, u, period);
      LookedUpAreOwned(env, View(), u, names);
      PrefixOfNewIds(View(), ids, |list|);
      assert ids[..|names|][..|list|] == ids[..|list|];
      var next;
      next, outcome := UpdateEventRows(env, View(), u, e, description, period, req.tags, list, ids[..|list|],
          CategoryOfKind(View(), u, Date));
      Commit(next);
    }

    method DeleteEvent(u: UserId, e: Id) returns (outcome: Outcome)
      modifies this
      ensures (View(), outcome) == CatalogEvents.DeleteEvent(old(View()), u, e)
    {
      if e !in events || events[e].user != u {
        return NotFound;
      }
      Commit(DeleteEvents(View(), {e}));
      return Done(e);
    }

    // The events found, most recent first; None for a malformed index
    method GetEvents(env: Env, u: UserId, asked: seq<string>) returns (timeline: Option<seq<Id>>)
      ensures timeline.Some? <==> Search.QueryAccepted(E2ee(View(), u), asked)
      ensures timeline.Some? ==> Search.MostRecentFirst(events, timeline.value)
      ensures timeline.Some? ==>
                forall e :: e in timeline.value
                    <==> Search.Found(View(), u, Search.Terms(env, E2ee(View(), u), u, asked), e)
    {
      var terms := SearchTerms(env, E2ee(View(), u), u, asked);
      if terms.None? {
        return None;
      }
      var found := FindEvents(View(), u, terms.value);
      var sorted := SortTimeline(events, found);
      Search.TimelineIsMostRecentFirst(events, sorted);
      return Some(sorted);
    }

    // ---- Users and modes ----

    method Seed(env: Env, u: UserId, dates: Id, persons: Id, others: Id)
      modifies `categories
      ensures categories == old(categories) + Seeds(env, u, dates, persons, others)
    {
      categories := categories[dates := Category(u, Date, true, env.cipher.enc(u, "Dates"), None)];
      categories := categories[persons := Category(u, Person, false, env.cipher.enc(u, "Persons"), None)];
      categories := categories[others := Category(u, Other, true, env.cipher.enc(u, "Others"), None)];
    }

    method Register(env: Env, u: UserId, dates: Id, persons: Id, others: Id) returns (outcome: Outcome)
      modifies this
      ensures (View(), outcome) == Catalog.Register(env, old(View()), u, dates, persons, others)
      ensures old(Aggregate(View())) && u !in old(users) && old(NewIds(View(), dates, persons, others)) ==>
                Aggregate(View()) && HasKind(categories, u, Date) && HasKind(categories, u, Other)
                && (Sound(env.cipher) && old(Modes(env.cipher, View())) ==> Modes(env.cipher, View()))
    {
      hide Aggregate, Modes, Sound;
      ghost var db := View();
      if Aggregate(db) && u !in users && NewIds(db, dates, persons, others) {
        RegisterKeeps(env, db, u, dates, persons, others);
        AggregateDefaults(Catalog.Register(env, db, u, dates, persons, others).0);
        if Sound(env.cipher) && Modes(env.cipher, db) {
          CatalogRuns.RegistrationKeepsModes(env, db, u, dates, persons, others);
        }
      }
      users := users[u := User(false, None)];
      Seed(env, u, dates, persons, others);
      return Done(u);
    }

    method Purge(env: Env, u: UserId, dates: Id, persons: Id, others: Id) returns (outcome: Outcome)
      modifies this
      ensures (View(), outcome) == Catalog.Purge(env, old(View()), u, dates, persons, others)
      ensures outcome.Done? <==> E2ee(old(View()), u)
      ensures outcome.Done? ==> EventsOf(events, u) == {} && !E2ee(View(), u)
                                && CategoriesOf(categories, u) == {dates, persons, others}
      ensures old(Aggregate(View())) && old(NewIds(View(), dates, persons, others)) ==>
                Aggregate(View()) && (outcome.Done? ==> TagsOf(View(), u) == {} && GroupsOf(View(), u) == {})
                && (Sound(env.cipher) && old(Modes(env.cipher, View())) ==> Modes(env.cipher, View()))
    {
      hide Aggregate, Modes, Sound, NewIds;
      ghost var db := View();
      if E2ee(db, u) {
        PurgeLeaves(env, db, u, dates, persons, others);
      }
      if Aggregate(db) && NewIds(db, dates, persons, others) {
        PurgeKeeps(env, db, u, dates, persons, others);
        if E2ee(db, u) {
          PurgeLeavesNoTags(env, db, u, dates, persons, others);
        }
        if Sound(env.cipher) && Modes(env.cipher, db) {
          PurgeKeepsModes(env, db, u, dates, persons, others);
        }
      }
      if !E2ee(View(), u) {
        return Conflict;
      }
      Commit(DeleteEvents(View(), EventsOf(events, u)));
      Commit(DeleteCategories(View(), CategoriesOf(categories, u)));
      OnlyEvents(old(View()), EventsOf(old(events), u));
      Seed(env, u, dates, persons, others);
      users := users[u := User(false, None)];
      return Done(u);
    }

    method Enable(k: Cipher, u: UserId, keyCheck: string, data: Dataset) returns (outcome: Outcome)
      requires Sound(k) && Modes(k, View()) && Aggregate(View())
      modifies this
      ensures (View(), outcome) == Migration.Enable(old(View()), u, keyCheck, data)
    {
      hide Sound, Modes, Aggregate, ShapesOk, IsKeyCheck, DataMode, Swap;
      if !IsKeyCheck(keyCheck) {
        return BadRequest;
      }
      if !ShapesOk(data) {
        return BadRequest;
      }
      EnableDataMode(k, u, data);
      var next: Db;
      next, outcome := SwapRows(k, View(), u, true, Some(keyCheck), data);
      Commit(next);
    }

    method Disable(env: Env, u: UserId, data: Dataset) returns (outcome: Outcome)
      requires Sound(env.cipher) && Modes(env.cipher, View()) && Aggregate(View())
      modifies this
      ensures (View(), outcome) == Migration.Disable(env, old(View()), u, data)
    {
      hide Sound, Modes, Aggregate, NoBlanks, DataMode, Swap, AtRestData;
      var categories := NormaliseRows(env.alphabet, data.categories);
      if categories.None? {
        return BadRequest;
      }
      var tags := NormaliseRows(env.alphabet, data.tags);
      if tags.None? {
        return BadRequest;
      }
      var groups := NormaliseRows(env.alphabet, data.groups);
      if groups.None? {
        return BadRequest;
      }
      var normal := Dataset(categories.value, tags.value, groups.value, data.events);
      DisableDataMode(env, u, data);
      var next: Db;
      next, outcome := SwapRows(env.cipher, View(), u, false, None, normal);
      Commit(next);
    }

    method DeleteGroup(u: UserId, g: Id) returns (outcome: Outcome)
      modifies this
      ensures (View(), outcome) == Catalog.DeleteGroup(old(View()), u, g)
    {
      if g !in groups || groups[g].category !in categories || categories[groups[g].category].user != u {
        return NotFound;
      }
      Commit(DeleteGroups(View(), {g}));
      return Done(g);
    }
  }

  lemma SameMembers(db: Db, g: Id, key: Key, a: seq<Id>, b: seq<Id>)
    requires forall t :: t in a <==> t in b
    ensures PutGroup(db, g, key, a) == PutGroup(db, g, key, b)
  {
    assert (set t | t in a :: Membership(g, t)) == (set t | t in b :: Membership(g, t));
  }

  lemma PutGroupPuts(db: Db, g: Id, key: Key, members: seq<Id>)
    ensures PutGroup(db, g, key, members).groups == db.groups[g := key]
  {
  }

  lemma NotCreatedWithoutClientId(db: Db, u: UserId, clientId: Option<string>)
    ensures clientId.None? ==> forall e :: !EventCreated(db, u, clientId, e)
  {
  }

  lemma CreatedHasClientId(db: Db, u: UserId, clientId: Option<string>)
    ensures (exists f :: EventCreated(db, u, clientId, f)) ==> clientId.Some?
  {
  }

  lemma AcceptedPeriod(db: Db, u: UserId, req: EventRequest)
    requires EventAccepted(db, u, req)
    ensures DateTags.PeriodAccepted(DateTags.Normalised(req.period))
  {
  }

  lemma CreatedIsOne(db: Db, u: UserId, clientId: Option<string>, e: Id)
    requires EventsOk(db.users, db.events) && EventCreated(db, u, clientId, e)
    ensures forall f | EventCreated(db, u, clientId, f) :: f == e
  {
  }

  lemma NoneWithoutClientId(db: Db, u: UserId, clientId: Option<string>)
    ensures clientId.None? ==> forall c :: !CategoryCreated(db, u, clientId, c)
  {
  }

  lemma ReplayedIsOne(db: Db, u: UserId, clientId: Option<string>, c: Id)
    requires CategoriesOk(db.users, db.categories) && CategoryCreated(db, u, clientId, c)
    ensures forall d | CategoryCreated(db, u, clientId, d) :: d == c
  {
    forall d | CategoryCreated(db, u, clientId, d)
      ensures d == c
    {
      assert c == d || Apart(db.categories[c], db.categories[d]);
    }
  }
}
