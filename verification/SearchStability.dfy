/** What maintenance of tags and categories leaves of a search. */
module SearchStability {
  import opened Collections
  import opened Options
  import opened Encryption
  import opened Catalog
  import opened CatalogInvariant
  import opened Search

  lemma SameHitsSameSearch(db: Db, next: Db, u: UserId, names: seq<string>, e: Id)
    requires e in db.events <==> e in next.events
    requires e in db.events ==> db.events[e].user == next.events[e].user
    requires forall name | name in names :: Hits(db, u, e, name) <==> Hits(next, u, e, name)
    ensures Found(db, u, names, e) <==> Found(next, u, names, e)
  {
    hide Hits;
    assert MatchedNames(db, u, e, names) == MatchedNames(next, u, e, names);
  }

  lemma DeletedSynonymHits(db: Db, id: Id, next: Db, u: UserId, e: Id, name: string)
    requires TagsOk(db.categories, db.tags) && id in db.tags && db.tags[id].parent.Some?
    requires next == DeleteTags(db.(links := Repoint(db.links, id, db.tags[id].parent.value)), {id})
    requires Column(E2ee(db, u), db.tags[id].key) != Some(name)
    ensures Hits(db, u, e, name) <==> Hits(next, u, e, name)
  {
    var parent := db.tags[id].parent.value;
    SynonymAloneGoes(db, id, next);
    hide DeleteTags, TagsOk;
    if Hits(db, u, e, name) {
      var l, named :| Joined(db, u, e, name, l, named);
      var m := if l.tag == id then Link(parent, l.event, l.user) else l;
      assert m in Repoint(db.links, id, parent);
      assert Joined(next, u, e, name, m, named);
    }
    if Hits(next, u, e, name) {
      var m, named :| Joined(next, u, e, name, m, named);
      var l :| l in db.links && m == if l.tag == id then Link(parent, l.event, l.user) else l;
      assert Joined(db, u, e, name, l, named);
    }
  }

  // Deleting a synonym leaves every search that does not name it unchanged, whoever searches
  lemma SearchSurvivesSynonymDeletion(db: Db, v: UserId, id: Id, deleteEvents: bool, u: UserId, names: seq<string>,
                                      e: Id)
    requires Aggregate(db) && DeleteTag(db, v, id, deleteEvents).1.Done? && db.tags[id].parent.Some?
    requires forall name | name in names :: Column(E2ee(db, u), db.tags[id].key) != Some(name)
    ensures Found(db, u, names, e) <==> Found(DeleteTag(db, v, id, deleteEvents).0, u, names, e)
  {
    var next := DeleteTag(db, v, id, deleteEvents).0;
    SynonymAloneGoes(db, id, next);
    hide DeleteTags, Repoint, Hits, CategoriesOk, DefaultsOk, TagsOk, GroupsOk, MembersOk, EventsOk, LinksOk,
      TagNamesUnique, KeysUnique;
    forall name | name in names
      ensures Hits(db, u, e, name) <==> Hits(next, u, e, name)
    {
      DeletedSynonymHits(db, id, next, u, e, name);
    }
    SameHitsSameSearch(db, next, u, names, e);
  }

  // Tags that changed nothing but their category, within one owner, and kept their main tags
  ghost predicate OnlyMoved(db: Db, next: Db) {
    && next.users == db.users && next.events == db.events && next.links == db.links
    && next.tags.Keys == db.tags.Keys
    && (forall t | t in db.tags ::
        next.tags[t].parent == db.tags[t].parent && next.tags[t].key.name == db.tags[t].key.name
                                   && next.tags[t].key.index == db.tags[t].key.index)
    && (forall t, u | t in db.tags :: OwnsTag(db.categories, db.tags, u, t)
                                      <==> OwnsTag(next.categories, next.tags, u, t))
  }

  lemma MovedHits(db: Db, next: Db, u: UserId, e: Id, name: string)
    requires OnlyMoved(db, next)
    ensures Hits(db, u, e, name) <==> Hits(next, u, e, name)
  {
    hide OwnsTag;
    forall l, t
      ensures Joined(db, u, e, name, l, t) <==> Joined(next, u, e, name, l, t)
    {
    }
    hide Joined;
  }

  lemma SearchSurvivesMove(db: Db, next: Db, u: UserId, names: seq<string>, e: Id)
    requires OnlyMoved(db, next)
    ensures Found(db, u, names, e) <==> Found(next, u, names, e)
  {
    hide Hits;
    forall name | name in names
      ensures Hits(db, u, e, name) <==> Hits(next, u, e, name)
    {
      MovedHits(db, next, u, e, name);
    }
    SameHitsSameSearch(db, next, u, names, e);
  }

  lemma MoveIsMove(db: Db, c: Id, other: Id)
    requires TagsOk(db.categories, db.tags) && LinksOk(db.categories, db.tags, db.events, db.links)
    requires c in db.categories && other in db.categories && c != other
    requires db.categories[c].user == db.categories[other].user
    ensures var moved := db.(tags := MoveTags(db.tags, c, other), groups := MoveGroups(db.groups, c, other));
            OnlyMoved(db, DeleteCategories(moved, {c}))
  {
    var moved := db.(tags := MoveTags(db.tags, c, other), groups := MoveGroups(db.groups, c, other));
    var next := DeleteCategories(moved, {c});
    assert TagsIn(moved.tags, {c}) == {};
    assert SynonymsOf(moved.tags, {}) == {};
    assert next.tags == moved.tags && next.categories == db.categories - {c};
    assert next.links == db.links;
    hide DeleteCategories, TagsOk, LinksOk;
  }

  // Deleting a category with its tags moved to the others leaves every search unchanged
  lemma SearchSurvivesCategoryMove(db: Db, v: UserId, c: Id, deleteEvents: bool, u: UserId, names: seq<string>, e: Id)
    requires Aggregate(db) && DeleteCategory(db, v, c, true, deleteEvents).1.Done?
    ensures Found(db, u, names, e) <==> Found(DeleteCategory(db, v, c, true, deleteEvents).0, u, names, e)
  {
    var other := CategoryOfKind(db, v, Other);
    OthersAreLocked(db, v, other);
    MoveIsMove(db, c, other);
    hide Aggregate, OnlyMoved, DeleteCategories, MoveTags, MoveGroups, TagNamesUnique, KeysUnique, HasKind, Found;
    SearchSurvivesMove(db, DeleteCategory(db, v, c, true, deleteEvents).0, u, names, e);
  }

  lemma OthersAreLocked(db: Db, v: UserId, c: Id)
    requires Aggregate(db) && IsKind(db, v, Other, c)
    ensures db.categories[c].locked
  {
    assert CategoryOk(db.users, db.categories[c]);
  }

  lemma RetagIsMove(db: Db, v: UserId, id: Id, tag: Tag, members: set<Membership>)
    requires TagsOk(db.categories, db.tags) && OwnsTag(db.categories, db.tags, v, id)
             && OwnsCategory(db, v, tag.key.category)
    requires db.tags[id].parent.None? && tag.parent.None?
    requires tag.key.name == db.tags[id].key.name && tag.key.index == db.tags[id].key.index
    ensures OnlyMoved(db, db.(tags := Retag(db.tags, id, tag), members := members))
  {
    var next := db.(tags := Retag(db.tags, id, tag), members := members);
    forall t, u | t in db.tags
      ensures OwnsTag(db.categories, db.tags, u, t) <==> OwnsTag(next.categories, next.tags, u, t)
    {
      assert ParentOk(db.tags, t);
    }
  }

  // Moving a main tag to another category under its own name leaves every search unchanged
  lemma SearchSurvivesTagMove(env: Env, db: Db, v: UserId, id: Id, req: TagRequest, u: UserId, names: seq<string>,
                              e: Id)
    requires Aggregate(db) && UpdateTag(env, db, v, id, req).1.Done?
    requires db.tags[id].parent.None? && req.parent.None?
    requires NameToStore(env, db, v, req.name) == Some(db.tags[id].key.name)
    requires IndexToStore(db, v, req.index) == db.tags[id].key.index
    ensures Found(db, u, names, e) <==> Found(UpdateTag(env, db, v, id, req).0, u, names, e)
  {
    hide NameToStore, IndexToStore, TagNamesUnique, Retag, Regroup, Found, OnlyMoved, CategoriesOk, DefaultsOk,
      TagsOk, GroupsOk, MembersOk, EventsOk, LinksOk, KeysUnique;
    var tag := StoredTag(env, db, v, req);
    RetagIsMove(db, v, id, tag, Regroup(db.groups, db.members, id, tag));
    SearchSurvivesMove(db, UpdateTag(env, db, v, id, req).0, u, names, e);
  }

  lemma JoiningHits(db: Db, v: UserId, id: Id, tag: Tag, members: set<Membership>, u: UserId, e: Id, name: string)
    requires TagsOk(db.categories, db.tags) && OwnsTag(db.categories, db.tags, v, id)
             && OwnsCategory(db, v, tag.key.category)
    requires db.tags[id].parent.None? && !HasSynonyms(db.tags, id) && tag.parent.Some? && tag.parent.value in db.tags
    requires tag.parent.value != id && db.tags[tag.parent.value].parent.None?
    requires tag.key.name == db.tags[id].key.name && tag.key.index == db.tags[id].key.index
    requires Hits(db, u, e, name)
    ensures Hits(db.(tags := Retag(db.tags, id, tag), members := members), u, e, name)
  {
    var next := db.(tags := Retag(db.tags, id, tag), members := members);
    var l, named :| Joined(db, u, e, name, l, named);
    forall t | t in db.tags
      ensures Root(next.tags, t) == if Root(db.tags, t) == id then tag.parent.value else Root(db.tags, t)
    {
    }
    hide Retag, TagsOk, HasSynonyms;
    assert OwnsTag(next.categories, next.tags, u, named) by { RetaggedOwner(db, v, id, tag, members, u, named); }
    assert Column(E2ee(next, u), next.tags[named].key)
        == Some(name) by { RetaggedOwner(db, v, id, tag, members, u, named); }
    assert Joined(next, u, e, name, l, named);
  }

  lemma RetaggedOwner(db: Db, v: UserId, id: Id, tag: Tag, members: set<Membership>, u: UserId, t: Id)
    requires OwnsTag(db.categories, db.tags, v, id) && OwnsCategory(db, v, tag.key.category) && tag.parent.Some?
    requires tag.key.name == db.tags[id].key.name && tag.key.index == db.tags[id].key.index
    requires OwnsTag(db.categories, db.tags, u, t)
    ensures var next := db.(tags := Retag(db.tags, id, tag), members := members);
            && OwnsTag(next.categories, next.tags, u, t)
            && next.tags[t].key.name == db.tags[t].key.name && next.tags[t].key.index == db.tags[t].key.index
  {
  }

  lemma HitsOnlyGrow(db: Db, next: Db, u: UserId, names: seq<string>, e: Id)
    requires next.events == db.events
    requires forall name | name in names && Hits(db, u, e, name) :: Hits(next, u, e, name)
    requires Found(db, u, names, e)
    ensures Found(next, u, names, e)
  {
    if names != [] {
      CountingMeansAll(db, u, names, e);
      CountingMeansAll(next, u, names, e);
    }
    hide Hits, MatchedNames, Distinct;
  }

  // A main tag without synonyms that becomes one under its own name only makes searches
  // find more
  lemma SearchGrowsByJoining(env: Env, db: Db, v: UserId, id: Id, req: TagRequest, u: UserId, names: seq<string>, e: Id)
    requires Aggregate(db) && UpdateTag(env, db, v, id, req).1.Done?
    requires db.tags[id].parent.None? && req.parent.Some?
    requires NameToStore(env, db, v, req.name) == Some(db.tags[id].key.name)
    requires IndexToStore(db, v, req.index) == db.tags[id].key.index
    requires Found(db, u, names, e)
    ensures Found(UpdateTag(env, db, v, id, req).0, u, names, e)
  {
    hide NameToStore, IndexToStore, TagNamesUnique, Retag, Regroup, Found, Hits, CategoriesOk, DefaultsOk, TagsOk,
      GroupsOk, MembersOk, EventsOk, LinksOk, KeysUnique, HasSynonyms;
    var tag := StoredTag(env, db, v, req);
    var next := UpdateTag(env, db, v, id, req).0;
    forall name | name in names && Hits(db, u, e, name)
      ensures Hits(next, u, e, name)
    {
      JoiningHits(db, v, id, tag, Regroup(db.groups, db.members, id, tag), u, e, name);
    }
    HitsOnlyGrow(db, next, u, names, e);
  }
}
