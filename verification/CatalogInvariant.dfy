/** Every use case keeps the tables consistent. */
module CatalogInvariant {
  import opened Options
  import opened Encryption
  import opened Catalog

  lemma UserHasDates(db: Db, u: UserId)
    requires Aggregate(db) && u in db.users
    ensures HasKind(db.categories, u, Date)
  {
  }

  // ---- Deletions ----

  lemma FewerTags(categories: map<Id, Category>, tags: map<Id, Tag>, gone: set<Id>)
    requires TagsOk(categories, tags) && TagNamesUnique(tags) && SynonymsOf(tags, gone) <= gone
    ensures TagsOk(categories, tags - gone) && TagNamesUnique(tags - gone)
  {
    forall t | t in tags - gone
      ensures ParentOk(tags - gone, t)
    {
      assert ParentOk(tags, t) && t !in SynonymsOf(tags, gone);
    }
    hide ParentOk, Clash, SynonymsOf;
  }

  lemma FewerTagsMembers(tags: map<Id, Tag>, groups: map<Id, Key>, members: set<Membership>, gone: set<Id>)
    requires MembersOk(tags, groups, members)
    ensures MembersOk(tags - gone, groups, set m | m in members && m.tag !in gone)
  {
  }

  lemma FewerTagsLinks(categories: map<Id, Category>, tags: map<Id, Tag>, events: map<Id, Event>, links: set<Link>,
                       gone: set<Id>)
    requires LinksOk(categories, tags, events, links)
    ensures LinksOk(categories, tags - gone, events, set l | l in links && l.tag !in gone)
  {
  }

  lemma SynonymsStayOne(categories: map<Id, Category>, tags: map<Id, Tag>, dead: set<Id>)
    requires TagsOk(categories, tags)
    ensures var gone := dead + SynonymsOf(tags, dead); SynonymsOf(tags, gone) <= gone
  {
    var gone := dead + SynonymsOf(tags, dead);
    forall t | t in SynonymsOf(tags, gone)
      ensures t in gone
    {
      assert ParentOk(tags, t);
    }
  }

  lemma DeleteTagsKeeps(db: Db, dead: set<Id>)
    requires Aggregate(db)
    ensures Aggregate(DeleteTags(db, dead))
  {
    var gone := dead + SynonymsOf(db.tags, dead);
    SynonymsStayOne(db.categories, db.tags, dead);
    FewerTags(db.categories, db.tags, gone);
    FewerTagsMembers(db.tags, db.groups, db.members, gone);
    FewerTagsLinks(db.categories, db.tags, db.events, db.links, gone);
    hide CategoriesOk, DefaultsOk, GroupsOk, KeysUnique, EventsOk, TagsOk, TagNamesUnique, MembersOk, LinksOk,
      SynonymsOf;
  }

  lemma DeleteEventsKeeps(db: Db, dead: set<Id>)
    requires Aggregate(db)
    ensures Aggregate(DeleteEvents(db, dead))
  {
    hide CategoriesOk, DefaultsOk, GroupsOk, KeysUnique, TagsOk, TagNamesUnique, MembersOk, PeriodOk;
  }

  lemma DeleteGroupsKeeps(db: Db, dead: set<Id>)
    requires Aggregate(db)
    ensures Aggregate(DeleteGroups(db, dead))
  {
    hide CategoriesOk, DefaultsOk, EventsOk, LinksOk, TagsOk, TagNamesUnique;
  }

  lemma FewerCategories(users: map<UserId, User>, categories: map<Id, Category>, dead: set<Id>)
    requires CategoriesOk(users, categories)
    ensures CategoriesOk(users, categories - dead)
  {
  }

  lemma FewerCategoriesRest(db: Db, dead: set<Id>)
    requires TagsOk(db.categories, db.tags) && GroupsOk(db.categories, db.groups)
    requires LinksOk(db.categories, db.tags, db.events, db.links)
    requires TagsIn(db.tags, dead) == {} && GroupsIn(db.groups, dead) == {}
    ensures TagsOk(db.categories - dead, db.tags) && GroupsOk(db.categories - dead, db.groups)
    ensures LinksOk(db.categories - dead, db.tags, db.events, db.links)
  {
    forall t | t in db.tags
      ensures db.tags[t].key.category !in dead
    {
      assert t !in TagsIn(db.tags, dead);
    }
    forall g | g in db.groups
      ensures db.groups[g].category !in dead
    {
      assert g !in GroupsIn(db.groups, dead);
    }
    hide ParentOk, TagsIn, GroupsIn;
  }

  lemma NothingLeftIn(db: Db, dead: set<Id>)
    ensures var rest := DeleteGroups(DeleteTags(db, TagsIn(db.tags, dead)), GroupsIn(db.groups, dead));
            TagsIn(rest.tags, dead) == {} && GroupsIn(rest.groups, dead) == {}
            && rest.categories == db.categories && rest.users == db.users && rest.events == db.events
  {
  }

  // All but the default categories survives a deletion of categories
  lemma DeleteCategoriesKeepsRest(db: Db, dead: set<Id>)
    requires Aggregate(db)
    ensures var next := DeleteCategories(db, dead);
            && CategoriesOk(next.users, next.categories)
            && TagsOk(next.categories, next.tags) && TagNamesUnique(next.tags)
            && GroupsOk(next.categories, next.groups) && KeysUnique(next.groups)
            && MembersOk(next.tags, next.groups, next.members)
            && EventsOk(next.users, next.events)
            && LinksOk(next.categories, next.tags, next.events, next.links)
  {
    var tagless := DeleteTags(db, TagsIn(db.tags, dead));
    DeleteTagsKeeps(db, TagsIn(db.tags, dead));
    var rest := DeleteGroups(tagless, GroupsIn(db.groups, dead));
    DeleteGroupsKeeps(tagless, GroupsIn(db.groups, dead));
    NothingLeftIn(db, dead);
    hide DeleteTags, DeleteGroups, TagsIn, GroupsIn, DefaultsOk, KeysUnique, TagNamesUnique, MembersOk, EventsOk,
      CategoriesOk, TagsOk, GroupsOk, LinksOk;
    FewerCategories(rest.users, rest.categories, dead);
    FewerCategoriesRest(rest, dead);
  }

  lemma HasKindSomewhere(categories: map<Id, Category>, more: map<Id, Category>, u: UserId, kind: Kind)
    requires HasKind(categories, u, kind)
    requires forall c | c in categories && categories[c].user == u && categories[c].kind == kind ::
               c in more && more[c].user == u && more[c].kind == kind
    ensures HasKind(more, u, kind)
  {
    var d :| d in categories && categories[d].user == u && categories[d].kind == kind;
    assert d in more;
  }

  lemma UnlockedIsNoDefault(users: map<UserId, User>, categories: map<Id, Category>, c: Id)
    requires CategoriesOk(users, categories) && DefaultsOk(users, categories) && c in categories
             && !categories[c].locked
    ensures DefaultsOk(users, categories - {c})
  {
    hide HasKind, Apart;
    assert CategoryOk(users, categories[c]);
    forall u | u in users
      ensures HasKind(categories - {c}, u, Date) && HasKind(categories - {c}, u, Other)
    {
      HasKindSomewhere(categories, categories - {c}, u, Date);
      HasKindSomewhere(categories, categories - {c}, u, Other);
    }
  }

  lemma UnlockedGoes(db: Db, c: Id)
    requires Aggregate(db) && c in db.categories && !db.categories[c].locked
    ensures Aggregate(DeleteCategories(db, {c}))
  {
    DeleteCategoriesKeepsRest(db, {c});
    NothingLeftIn(db, {c});
    UnlockedIsNoDefault(db.users, db.categories, c);
    hide DeleteTags, DeleteGroups, TagsIn, GroupsIn, KeysUnique, TagNamesUnique, MembersOk, EventsOk, TagsOk,
      GroupsOk, LinksOk, DefaultsOk, CategoriesOk;
  }

  // ---- Tags ----

  lemma CreateTagKeeps(env: Env, db: Db, u: UserId, id: Id, req: TagRequest)
    requires Aggregate(db) && id !in db.tags
    ensures Aggregate(CreateTag(env, db, u, id, req).0)
  {
    hide CategoriesOk, DefaultsOk, EventsOk, KeysUnique, TagNamesUnique, NameToStore, IndexAccepted, IndexToStore;
  }

  lemma RetagKeepsTags(db: Db, u: UserId, id: Id, req: TagRequest, tag: Tag)
    requires TagsOk(db.categories, db.tags)
    requires id in db.tags && tag.key.category == req.category && tag.parent == req.parent
    requires req.parent.Some? ==> !HasSynonyms(db.tags, id)
    requires OwnsCategory(db, u, req.category) && ParentAccepted(db, u, id, req)
    ensures TagsOk(db.categories, Retag(db.tags, id, tag))
  {
    var next := Retag(db.tags, id, tag);
    forall t | t in next
      ensures ParentOk(next, t)
    {
      assert ParentOk(db.tags, t);
    }
  }

  lemma RetagKeepsMembers(db: Db, u: UserId, id: Id, req: TagRequest, tag: Tag)
    requires TagsOk(db.categories, db.tags) && MembersOk(db.tags, db.groups, db.members)
    requires id in db.tags && tag.key.category == req.category && tag.parent == req.parent
    requires ParentAccepted(db, u, id, req)
    ensures MembersOk(Retag(db.tags, id, tag), db.groups, Regroup(db.groups, db.members, id, tag))
  {
  }

  lemma RetagKeepsLinks(db: Db, u: UserId, id: Id, req: TagRequest, tag: Tag)
    requires TagsOk(db.categories, db.tags) && LinksOk(db.categories, db.tags, db.events, db.links)
    requires OwnsTag(db.categories, db.tags, u, id) && tag.key.category == req.category
             && OwnsCategory(db, u, req.category)
    ensures LinksOk(db.categories, Retag(db.tags, id, tag), db.events, db.links)
  {
    forall t | t in db.tags && db.tags[t].parent == Some(id)
      ensures OwnsTag(db.categories, db.tags, u, t)
    {
      assert ParentOk(db.tags, t);
    }
  }

  lemma UpdateTagKeeps(env: Env, db: Db, u: UserId, id: Id, req: TagRequest)
    requires Aggregate(db)
    ensures Aggregate(UpdateTag(env, db, u, id, req).0)
  {
    if UpdateTag(env, db, u, id, req).1.Done? {
      var tag := StoredTag(env, db, u, req);
      hide NameToStore, IndexAccepted, IndexToStore;
      RetagKeepsTags(db, u, id, req, tag);
      RetagKeepsMembers(db, u, id, req, tag);
      RetagKeepsLinks(db, u, id, req, tag);
      hide CategoriesOk, DefaultsOk, TagsOk, EventsOk, GroupsOk, KeysUnique, TagNamesUnique, MembersOk, LinksOk,
        Retag, Regroup;
    }
  }

  // A tag turned synonym leaves all its groups; its main tag is then in the groups of their
  // category that had either of them; nothing else changes
  lemma SynonymHandsOverGroups(env: Env, db: Db, u: UserId, id: Id, req: TagRequest, g: Id, t: Id)
    requires Aggregate(db) && UpdateTag(env, db, u, id, req).1.Done? && req.parent.Some?
    ensures var next := UpdateTag(env, db, u, id, req).0;
            Membership(g, t) in next.members <==>
              if t == id then false
              else if t == req.parent.value then
                Membership(g, t) in db.members
                || (Membership(g, id) in db.members && db.groups[g].category == req.category)
              else Membership(g, t) in db.members
  {
    var next := UpdateTag(env, db, u, id, req).0;
    hide CategoriesOk, DefaultsOk, TagsOk, TagNamesUnique, GroupsOk, KeysUnique, EventsOk, LinksOk, Retag,
      NameToStore, IndexAccepted;
    if Membership(g, id) in db.members {
      assert MemberOk(db.tags, db.groups, Membership(g, id));
      if t == req.parent.value && db.groups[g].category == req.category {
        assert Membership(g, t) in next.members;
      }
    }
  }

  // A main tag that moves leaves exactly the groups of other categories
  lemma MovedTagLeavesGroups(env: Env, db: Db, u: UserId, id: Id, req: TagRequest, g: Id, t: Id)
    requires Aggregate(db) && UpdateTag(env, db, u, id, req).1.Done? && req.parent.None?
    ensures Membership(g, t) in UpdateTag(env, db, u, id, req).0.members <==>
              Membership(g, t) in db.members && (t == id ==> db.groups[g].category == req.category)
  {
    hide CategoriesOk, DefaultsOk, TagsOk, TagNamesUnique, GroupsOk, KeysUnique, EventsOk, LinksOk, Retag,
      NameToStore, IndexAccepted;
    if Membership(g, t) in db.members {
      assert MemberOk(db.tags, db.groups, Membership(g, t));
    }
  }

  lemma SynonymAloneGoes(db: Db, id: Id, next: Db)
    requires TagsOk(db.categories, db.tags) && id in db.tags && db.tags[id].parent.Some?
    requires next == DeleteTags(db.(links := Repoint(db.links, id, db.tags[id].parent.value)), {id})
    ensures next.tags == db.tags - {id} && next.categories == db.categories && next.events == db.events
            && next.users == db.users
    ensures forall l :: l in next.links <==> l in Repoint(db.links, id, db.tags[id].parent.value) && l.tag != id
    ensures db.tags[id].parent.value != id && db.tags[id].parent.value in next.tags
            && next.tags[db.tags[id].parent.value].parent.None?
  {
    assert ParentOk(db.tags, id);
    forall t | t in db.tags && db.tags[t].parent.Some?
      ensures db.tags[t].parent.value != id
    {
      assert ParentOk(db.tags, t);
    }
    assert SynonymsOf(db.tags, {id}) == {};
  }

  // A deleted synonym's events are its main tag's afterwards; no other tag gains or loses one
  lemma SynonymHandsOverEvents(db: Db, u: UserId, id: Id, deleteEvents: bool, e: Id, t: Id, v: UserId)
    requires Aggregate(db) && DeleteTag(db, u, id, deleteEvents).1.Done? && db.tags[id].parent.Some?
    ensures var (next, parent) := (DeleteTag(db, u, id, deleteEvents).0, db.tags[id].parent.value);
            && next.events == db.events
            && (Link(t, e, v) in next.links <==>
                  if t == id then false
                  else if t == parent then Link(t, e, v) in db.links || Link(id, e, v) in db.links
                  else Link(t, e, v) in db.links)
  {
    var next := DeleteTag(db, u, id, deleteEvents).0;
    SynonymAloneGoes(db, id, next);
    RepointedLinks(db.links, id, db.tags[id].parent.value, Link(t, e, v));
    hide Aggregate, DeleteTags, Repoint;
  }

  lemma RepointedLinks(links: set<Link>, id: Id, parent: Id, l: Link)
    requires id != parent
    ensures l in Repoint(links, id, parent) <==>
              l.tag != id && (l in links || (l.tag == parent && Link(id, l.event, l.user) in links))
  {
    if l.tag == parent && Link(id, l.event, l.user) in links {
      assert l in Repoint(links, id, parent);
    }
  }

  lemma RepointKeeps(db: Db, id: Id)
    requires Aggregate(db) && id in db.tags && db.tags[id].parent.Some?
    ensures Aggregate(db.(links := Repoint(db.links, id, db.tags[id].parent.value)))
  {
    assert ParentOk(db.tags, id);
    hide CategoriesOk, DefaultsOk, TagNamesUnique, GroupsOk, KeysUnique, MembersOk, EventsOk;
  }

  lemma DeleteTagKeeps(db: Db, u: UserId, id: Id, deleteEvents: bool)
    requires Aggregate(db)
    ensures Aggregate(DeleteTag(db, u, id, deleteEvents).0)
  {
    hide Aggregate, DeleteTags, DeleteEvents, Repoint;
    if OwnsTag(db.categories, db.tags, u, id) {
      if db.tags[id].parent.Some? {
        RepointKeeps(db, id);
        DeleteTagsKeeps(db.(links := Repoint(db.links, id, db.tags[id].parent.value)), {id});
      } else {
        var doomed := EventsOf(db.events, u) * EventsTagged(db.links, SynonymGroup(db.tags, id));
        DeleteEventsKeeps(db, doomed);
        DeleteTagsKeeps(DeleteEvents(db, doomed), {id});
        DeleteTagsKeeps(db, {id});
      }
    }
  }

  // ---- Categories ----

  lemma PutCategoryKeepsRest(db: Db, c: Id, cat: Category)
    requires c in db.categories ==> db.categories[c].user == cat.user && db.categories[c].kind == cat.kind
    requires TagsOk(db.categories, db.tags) && GroupsOk(db.categories, db.groups)
    requires LinksOk(db.categories, db.tags, db.events, db.links)
    ensures TagsOk(db.categories[c := cat], db.tags) && GroupsOk(db.categories[c := cat], db.groups)
    ensures LinksOk(db.categories[c := cat], db.tags, db.events, db.links)
  {
    hide ParentOk;
  }

  lemma PutCategoryKeeps(db: Db, c: Id, cat: Category)
    requires Aggregate(db)
    requires c in db.categories ==> db.categories[c].user == cat.user && db.categories[c].kind == cat.kind
    requires CategoriesOk(db.users, db.categories[c := cat])
    ensures Aggregate(db.(categories := db.categories[c := cat]))
  {
    hide CategoriesOk, TagNamesUnique, KeysUnique, MembersOk, EventsOk, TagsOk, GroupsOk, LinksOk, HasKind;
    PutCategoryKeepsRest(db, c, cat);
    forall u | u in db.users
      ensures HasKind(db.categories[c := cat], u, Date) && HasKind(db.categories[c := cat], u, Other)
    {
      HasKindSomewhere(db.categories, db.categories[c := cat], u, Date);
      HasKindSomewhere(db.categories, db.categories[c := cat], u, Other);
    }
  }

  lemma NewCategoryOk(users: map<UserId, User>, categories: map<Id, Category>, id: Id, cat: Category)
    requires CategoriesOk(users, categories) && id !in categories
    requires cat.user in users && cat.kind.Custom? && !cat.locked
    requires cat.clientId.Some? ==> forall c | c in categories && categories[c].user == cat.user ::
             categories[c].clientId != cat.clientId
    ensures CategoriesOk(users, categories[id := cat])
  {
  }

  lemma RenamedCategoryOk(users: map<UserId, User>, categories: map<Id, Category>, c: Id, name: string)
    requires CategoriesOk(users, categories) && c in categories
    ensures CategoriesOk(users, categories[c := categories[c].(name := name)])
  {
  }

  lemma CreateCategoryKeeps(env: Env, db: Db, u: UserId, id: Id, req: CategoryRequest)
    requires Aggregate(db) && u in db.users && id !in db.categories
    ensures Aggregate(CreateCategory(env, db, u, id, req).0)
  {
    hide CategoryName, CategoriesOk, DefaultsOk, TagsOk, GroupsOk, TagNamesUnique, KeysUnique, MembersOk, EventsOk,
      LinksOk;
    if CreateCategory(env, db, u, id, req).1.Done? {
      var cat := Category(u, Custom, false, CategoryName(env, db, u, req.name).value, req.clientId);
      forall d | d in db.categories && db.categories[d].user == u && req.clientId.Some?
        ensures db.categories[d].clientId != req.clientId
      {
        assert !CategoryCreated(db, u, req.clientId, d);
      }
      NewCategoryOk(db.users, db.categories, id, cat);
      PutCategoryKeeps(db, id, cat);
    }
  }

  lemma UpdateCategoryKeeps(env: Env, db: Db, u: UserId, c: Id, name: string)
    requires Aggregate(db)
    ensures Aggregate(UpdateCategory(env, db, u, c, name).0)
  {
    hide CategoryName, CategoriesOk, DefaultsOk, TagsOk, GroupsOk, TagNamesUnique, KeysUnique, MembersOk, EventsOk,
      LinksOk;
    if UpdateCategory(env, db, u, c, name).1.Done? {
      var stored := CategoryName(env, db, u, name).value;
      RenamedCategoryOk(db.users, db.categories, c, stored);
      PutCategoryKeeps(db, c, db.categories[c].(name := stored));
    }
  }

  lemma MoveKeeps(db: Db, from: Id, to: Id)
    requires Aggregate(db) && from in db.categories && to in db.categories
    requires db.categories[from].user == db.categories[to].user && !db.categories[to].kind.Date?
    requires TagNamesUnique(MoveTags(db.tags, from, to)) && KeysUnique(MoveGroups(db.groups, from, to))
    ensures Aggregate(db.(tags := MoveTags(db.tags, from, to), groups := MoveGroups(db.groups, from, to)))
  {
    hide CategoriesOk, DefaultsOk, TagNamesUnique, KeysUnique, EventsOk;
    forall t | t in db.tags
      ensures ParentOk(MoveTags(db.tags, from, to), t)
    {
      assert ParentOk(db.tags, t);
    }
  }

  lemma DeleteCategoryKeeps(db: Db, u: UserId, c: Id, moveTags: bool, deleteEvents: bool)
    requires Aggregate(db)
    ensures Aggregate(DeleteCategory(db, u, c, moveTags, deleteEvents).0)
  {
    hide Aggregate, DeleteCategories, DeleteEvents, MoveTags, MoveGroups, TagNamesUnique, KeysUnique;
    if DeleteCategory(db, u, c, moveTags, deleteEvents).1.Done? {
      if moveTags {
        var other := CategoryOfKind(db, u, Other);
        MoveKeeps(db, c, other);
        UnlockedGoes(db.(tags := MoveTags(db.tags, c, other), groups := MoveGroups(db.groups, c, other)), c);
      } else {
        var doomed := EventsOf(db.events, u) * EventsTagged(db.links, TagsIn(db.tags, {c}));
        DeleteEventsKeeps(db, doomed);
        if deleteEvents {
          assert DeleteEvents(db, doomed).categories == db.categories by { OnlyEvents(db, doomed); }
          UnlockedGoes(DeleteEvents(db, doomed), c);
        } else {
          UnlockedGoes(db, c);
        }
      }
    }
  }

  lemma OnlyEvents(db: Db, dead: set<Id>)
    ensures DeleteEvents(db, dead)
            == db.(events := DeleteEvents(db, dead).events, links := DeleteEvents(db, dead).links)
  {
  }

  // ---- Tag groups ----

  lemma PutGroupKeeps(db: Db, g: Id, key: Key, members: seq<Id>)
    requires Aggregate(db) && key.category in db.categories && !db.categories[key.category].kind.Date?
    requires forall t | t in members ::
             t in db.tags && db.tags[t].parent.None? && db.tags[t].key.category == key.category
    requires KeysUnique(db.groups[g := key])
    ensures Aggregate(PutGroup(db, g, key, members))
  {
    hide CategoriesOk, DefaultsOk, TagsOk, TagNamesUnique, KeysUnique, EventsOk, LinksOk;
  }

  lemma CreateGroupKeeps(env: Env, db: Db, u: UserId, id: Id, c: Id, req: GroupRequest)
    requires Aggregate(db)
    ensures Aggregate(CreateGroup(env, db, u, id, c, req).0)
  {
    hide Aggregate, KeysUnique, NameToStore, IndexAccepted;
    if CreateGroup(env, db, u, id, c, req).1.Done? {
      PutGroupKeeps(db, id, StoredGroup(env, db, u, c, req), req.members);
    }
  }

  lemma UpdateGroupKeeps(env: Env, db: Db, u: UserId, g: Id, req: GroupRequest)
    requires Aggregate(db)
    ensures Aggregate(UpdateGroup(env, db, u, g, req).0)
  {
    hide Aggregate, KeysUnique, NameToStore, IndexAccepted;
    if UpdateGroup(env, db, u, g, req).1.Done? {
      PutGroupKeeps(db, g, StoredGroup(env, db, u, db.groups[g].category, req), req.members);
    }
  }

  lemma DeleteGroupKeeps(db: Db, u: UserId, g: Id)
    requires Aggregate(db)
    ensures Aggregate(DeleteGroup(db, u, g).0)
  {
    hide Aggregate;
    DeleteGroupsKeeps(db, {g});
  }

  // ---- Users ----

  // What registration and the purge start from: the user has no category of his own
  ghost predicate Bare(db: Db, u: UserId) {
    && (forall c | c in db.categories :: db.categories[c].user != u)
    && CategoriesOk(db.users, db.categories)
    && (forall v | v in db.users && v != u :: HasKind(db.categories, v, Date) && HasKind(db.categories, v, Other))
    && TagsOk(db.categories, db.tags) && TagNamesUnique(db.tags)
    && GroupsOk(db.categories, db.groups) && KeysUnique(db.groups)
    && MembersOk(db.tags, db.groups, db.members)
    && EventsOk(db.users, db.events)
    && LinksOk(db.categories, db.tags, db.events, db.links)
  }

  ghost predicate NewIds(db: Db, dates: Id, persons: Id, others: Id) {
    dates != persons && persons != others && dates != others
    && dates !in db.categories && persons !in db.categories && others !in db.categories
  }

  lemma SeedsApart(env: Env, users: map<UserId, User>, u: UserId, dates: Id, persons: Id, others: Id)
    requires dates != persons && persons != others && dates != others
    ensures CategoriesOk(users[u := User(false, None)], Seeds(env, u, dates, persons, others))
    ensures forall c | c in Seeds(env, u, dates, persons, others) :: Seeds(env, u, dates, persons, others)[c].user == u
  {
  }

  lemma SeedsCategoriesOk(users: map<UserId, User>, more: map<UserId, User>, categories: map<Id, Category>,
                          seeds: map<Id, Category>, u: UserId)
    requires CategoriesOk(users, categories) && forall c | c in categories :: categories[c].user != u
    requires CategoriesOk(more, seeds) && forall c | c in seeds :: seeds[c].user == u
    requires users.Keys <= more.Keys && seeds.Keys !! categories.Keys
    ensures CategoriesOk(more, categories + seeds)
  {
    var next := categories + seeds;
    forall c, d | c in next && d in next && c != d
      ensures Apart(next[c], next[d])
    {
      if c in seeds && d in seeds {
      } else if c !in seeds && d !in seeds {
        assert Apart(categories[c], categories[d]);
      }
    }
  }

  lemma SeedsDefaults(env: Env, db: Db, u: UserId, dates: Id, persons: Id, others: Id)
    requires Bare(db, u) && NewIds(db, dates, persons, others)
    ensures DefaultsOk(db.users[u := User(false, None)], db.categories + Seeds(env, u, dates, persons, others))
  {
    var next := db.categories + Seeds(env, u, dates, persons, others);
    hide CategoriesOk, TagsOk, TagNamesUnique, GroupsOk, KeysUnique, MembersOk, EventsOk, LinksOk;
    assert next[dates].user == u && next[dates].kind == Date && next[others].user == u && next[others].kind == Other;
    assert HasKind(next, u, Date) && HasKind(next, u, Other);
    assert forall c | c in db.categories :: next[c] == db.categories[c];
    hide HasKind, Seeds;
    forall v | v in db.users && v != u
      ensures HasKind(next, v, Date) && HasKind(next, v, Other)
    {
      HasKindSomewhere(db.categories, next, v, Date);
      HasKindSomewhere(db.categories, next, v, Other);
    }
  }

  lemma SeedsRest(env: Env, db: Db, u: UserId, dates: Id, persons: Id, others: Id)
    requires NewIds(db, dates, persons, others)
    requires TagsOk(db.categories, db.tags) && GroupsOk(db.categories, db.groups)
    requires LinksOk(db.categories, db.tags, db.events, db.links)
    ensures var next := db.categories + Seeds(env, u, dates, persons, others);
            TagsOk(next, db.tags) && GroupsOk(next, db.groups) && LinksOk(next, db.tags, db.events, db.links)
  {
    var next := db.categories + Seeds(env, u, dates, persons, others);
    assert forall c | c in db.categories :: c in next && next[c] == db.categories[c];
    hide Seeds, ParentOk;
  }

  lemma MoreUsersEvents(users: map<UserId, User>, events: map<Id, Event>, u: UserId, user: User)
    requires EventsOk(users, events)
    ensures EventsOk(users[u := user], events)
  {
    hide PeriodOk;
  }

  lemma SeedKeeps(env: Env, db: Db, u: UserId, dates: Id, persons: Id, others: Id)
    requires Bare(db, u) && NewIds(db, dates, persons, others)
    ensures Aggregate(Register(env, db, u, dates, persons, others).0)
  {
    hide DefaultsOk, CategoriesOk, TagsOk, TagNamesUnique, GroupsOk, KeysUnique, MembersOk, EventsOk, LinksOk, Seeds,
      HasKind;
    var seeds := Seeds(env, u, dates, persons, others);
    SeedsDefaults(env, db, u, dates, persons, others);
    SeedsApart(env, db.users, u, dates, persons, others);
    SeedsCategoriesOk(db.users, db.users[u := User(false, None)], db.categories, seeds, u);
    SeedsRest(env, db, u, dates, persons, others);
    MoreUsersEvents(db.users, db.events, u, User(false, None));
  }

  lemma RegisterKeeps(env: Env, db: Db, u: UserId, dates: Id, persons: Id, others: Id)
    requires Aggregate(db) && u !in db.users && NewIds(db, dates, persons, others)
    ensures Aggregate(Register(env, db, u, dates, persons, others).0)
  {
    assert Bare(db, u) by {
      hide TagsOk, TagNamesUnique, GroupsOk, KeysUnique, MembersOk, EventsOk, LinksOk;
    }
    SeedKeeps(env, db, u, dates, persons, others);
  }

  lemma PurgeBares(db: Db, u: UserId)
    requires Aggregate(db)
    ensures Bare(DeleteCategories(DeleteEvents(db, EventsOf(db.events, u)), CategoriesOf(db.categories, u)), u)
  {
    var eventless := DeleteEvents(db, EventsOf(db.events, u));
    DeleteEventsKeeps(db, EventsOf(db.events, u));
    OnlyEvents(db, EventsOf(db.events, u));
    BareOfDeleted(eventless, u);
  }

  lemma OthersKeepDefaults(users: map<UserId, User>, categories: map<Id, Category>, u: UserId)
    requires DefaultsOk(users, categories)
    ensures var left := categories - CategoriesOf(categories, u);
            forall v | v in users && v != u :: HasKind(left, v, Date) && HasKind(left, v, Other)
  {
    var left := categories - CategoriesOf(categories, u);
    assert forall c | c in categories && categories[c].user != u :: c in left;
    hide HasKind, CategoriesOf;
    forall v | v in users && v != u
      ensures HasKind(left, v, Date) && HasKind(left, v, Other)
    {
      HasKindSomewhere(categories, left, v, Date);
      HasKindSomewhere(categories, left, v, Other);
    }
  }

  lemma BareOfDeleted(db: Db, u: UserId)
    requires Aggregate(db)
    ensures Bare(DeleteCategories(db, CategoriesOf(db.categories, u)), u)
  {
    var dead := CategoriesOf(db.categories, u);
    DeleteCategoriesKeepsRest(db, dead);
    NothingLeftIn(db, dead);
    OthersKeepDefaults(db.users, db.categories, u);
    hide DeleteTags, DeleteGroups, TagsIn, GroupsIn, KeysUnique, TagNamesUnique, MembersOk, EventsOk, TagsOk,
      GroupsOk, LinksOk, CategoriesOk, DefaultsOk, HasKind;
  }

  lemma PurgeKeeps(env: Env, db: Db, u: UserId, dates: Id, persons: Id, others: Id)
    requires Aggregate(db) && NewIds(db, dates, persons, others)
    ensures Aggregate(Purge(env, db, u, dates, persons, others).0)
  {
    hide Aggregate, Bare, Register, DeleteEvents;
    if E2ee(db, u) {
      PurgeBares(db, u);
      var bare := DeleteCategories(DeleteEvents(db, EventsOf(db.events, u)), CategoriesOf(db.categories, u));
      OnlyEvents(db, EventsOf(db.events, u));
      assert NewIds(bare, dates, persons, others);
      SeedKeeps(env, bare, u, dates, persons, others);
    }
  }
}
