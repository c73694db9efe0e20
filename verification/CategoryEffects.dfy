/** What the use cases of categories, groups and users answer, and what they change. */
module CategoryEffects {
  import opened Options
  import opened Encryption
  import opened Text
  import opened Catalog
  import opened CatalogInvariant
  import opened StoredValues
  import opened TagEffects

  // ---- Creating and renaming a category ----

  ghost predicate CategoryAdded(env: Env, db: Db, next: Db, u: UserId, id: Id, req: CategoryRequest) {
    && next == db.(categories := next.categories) && next.categories.Keys == db.categories.Keys + {id}
    && (forall c | c in db.categories :: next.categories[c] == db.categories[c])
    && var made := next.categories[id];
    && made == Category(u, Custom, false, made.name, req.clientId)
    && SaysName(env, E2ee(db, u), u, made.name, req.name)
  }

  // A client id the user's categories have is a replay; under E2EE a name that is no blob is
  // refused; else a custom category is added, and nothing else changes
  lemma CreateCategoryDoes(env: Env, db: Db, u: UserId, id: Id, req: CategoryRequest)
    requires Sound(env.cipher) && id !in db.categories
    ensures var (next, outcome) := CreateCategory(env, db, u, id, req);
            var replay := req.clientId.Some? && exists c | c in db.categories ::
                db.categories[c].user == u && db.categories[c].clientId == req.clientId;
            && (outcome.Replayed? <==> replay)
            && (outcome.Replayed? ==> outcome.id in db.categories && db.categories[outcome.id].user == u
                                      && db.categories[outcome.id].clientId == req.clientId)
            && (outcome == BadRequest <==> !replay && E2ee(db, u) && !IsBlob(req.name))
            && (outcome == Done(id) || outcome.Replayed? || outcome == BadRequest)
            && (outcome.Done? ==> CategoryAdded(env, db, next, u, id, req))
            && (!outcome.Done? ==> next == db)
  {
    EncSays(env, u, req.name);
    if req.clientId.Some? {
      forall c | c in db.categories && db.categories[c].user == u && db.categories[c].clientId == req.clientId
        ensures CategoryCreated(db, u, req.clientId, c)
      {
      }
    }
    hide TitleCase, IsBlob, AtRest;
  }

  ghost predicate CategoryRenamed(env: Env, db: Db, next: Db, u: UserId, c: Id, name: string)
    requires c in db.categories
  {
    && next == db.(categories := next.categories) && next.categories.Keys == db.categories.Keys
    && (forall d | d in db.categories && d != c :: next.categories[d] == db.categories[d])
    && next.categories[c] == db.categories[c].(name := next.categories[c].name)
    && SaysName(env, E2ee(db, u), u, next.categories[c].name, name)
  }

  lemma UpdateCategoryDoes(env: Env, db: Db, u: UserId, c: Id, name: string)
    requires Sound(env.cipher)
    ensures var (next, outcome) := UpdateCategory(env, db, u, c, name);
            var own := c in db.categories && db.categories[c].user == u;
            && outcome == (if !own then NotFound
                           else if db.categories[c].locked then Forbidden
                           else if E2ee(db, u) && !IsBlob(name) then BadRequest
                           else Done(c))
            && (outcome.Done? ==> CategoryRenamed(env, db, next, u, c, name))
            && (!outcome.Done? ==> next == db)
  {
    EncSays(env, u, name);
    hide TitleCase, IsBlob, AtRest;
  }

  // ---- Deleting a category ----

  // The tags and groups of the category go to another, under their names and indexes
  predicate KeyMoved(key: Key, after: Key, c: Id, other: Id) {
    after == if key.category == c then Key(other, key.name, key.index) else key
  }

  ghost predicate CategoryMoved(db: Db, next: Db, c: Id, other: Id) {
    && next == db.(categories := next.categories, tags := next.tags, groups := next.groups)
    && next.categories.Keys == db.categories.Keys - {c} && next.tags.Keys == db.tags.Keys
    && next.groups.Keys == db.groups.Keys
    && (forall d | d in next.categories :: next.categories[d] == db.categories[d])
    && (forall t | t in db.tags ::
          KeyMoved(db.tags[t].key, next.tags[t].key, c, other) && next.tags[t].parent == db.tags[t].parent)
    && (forall g | g in db.groups :: KeyMoved(db.groups[g], next.groups[g], c, other))
  }

  // Whether an event carries a tag of the category
  ghost predicate CarriesCategory(db: Db, c: Id, e: Id) {
    exists l | l in db.links :: l.event == e && l.tag in db.tags && db.tags[l.tag].key.category == c
  }

  ghost predicate CategoryGone(db: Db, next: Db, c: Id, deleteEvents: bool) {
    && next.users == db.users
    && next.categories.Keys == db.categories.Keys - {c}
    && (forall d | d in next.categories :: next.categories[d] == db.categories[d])
    && (forall t :: t in next.tags <==> t in db.tags && db.tags[t].key.category != c)
    && (forall t | t in next.tags :: next.tags[t] == db.tags[t])
    && (forall g :: g in next.groups <==> g in db.groups && db.groups[g].category != c)
    && (forall g | g in next.groups :: next.groups[g] == db.groups[g])
    && (forall m :: m in next.members <==> m in db.members && m.group in next.groups)
    && (forall e :: e in next.events <==> e in db.events && !(deleteEvents && CarriesCategory(db, c, e)))
    && (forall e | e in next.events :: next.events[e] == db.events[e])
    && (forall l :: l in next.links <==> l in db.links && l.tag in next.tags && l.event in next.events)
  }

  // The categories with all that lies in them; synonym groups lie in them whole
  ghost predicate CategoriesGone(db: Db, next: Db, dead: set<Id>) {
    && next == db.(categories := next.categories, tags := next.tags, groups := next.groups, members := next.members,
                   links := next.links)
    && next.categories == db.categories - dead
    && (forall t :: t in next.tags <==> t in db.tags && db.tags[t].key.category !in dead)
    && (forall t | t in next.tags :: next.tags[t] == db.tags[t])
    && (forall g :: g in next.groups <==> g in db.groups && db.groups[g].category !in dead)
    && (forall g | g in next.groups :: next.groups[g] == db.groups[g])
    && (forall m :: m in next.members <==> m in db.members && m.tag in next.tags && m.group in next.groups)
    && (forall l :: l in next.links <==> l in db.links && l.tag in next.tags)
  }

  lemma DeletedCategoriesAreGone(db: Db, dead: set<Id>)
    requires TagsOk(db.categories, db.tags)
    requires forall m | m in db.members :: m.tag in db.tags && m.group in db.groups
    requires forall l | l in db.links :: l.tag in db.tags
    ensures CategoriesGone(db, DeleteCategories(db, dead), dead)
  {
    forall t | t in db.tags && db.tags[t].parent.Some?
      ensures db.tags[t].parent.value in db.tags
              && db.tags[db.tags[t].parent.value].key.category == db.tags[t].key.category
    {
      assert ParentOk(db.tags, t);
    }
    hide TagsOk, ParentOk;
    assert TagsIn(db.tags, dead) + SynonymsOf(db.tags, TagsIn(db.tags, dead)) == TagsIn(db.tags, dead);
  }

  lemma NothingDanglesEither(db: Db)
    requires Aggregate(db)
    ensures TagsOk(db.categories, db.tags)
    ensures forall m | m in db.members :: m.tag in db.tags && m.group in db.groups
                                          && db.tags[m.tag].key.category == db.groups[m.group].category
    ensures forall l | l in db.links :: l.tag in db.tags && l.event in db.events
  {
    hide CategoriesOk, DefaultsOk, TagsOk, TagNamesUnique, GroupsOk, KeysUnique, EventsOk;
  }

  lemma MovedAwayIsMoved(db: Db, c: Id, other: Id)
    requires Aggregate(db) && c != other && other in db.categories
    ensures var moved := db.(tags := MoveTags(db.tags, c, other), groups := MoveGroups(db.groups, c, other));
            CategoryMoved(db, DeleteCategories(moved, {c}), c, other)
  {
    hide CategoriesOk, DefaultsOk, TagsOk, TagNamesUnique, GroupsOk, KeysUnique, MembersOk, EventsOk, LinksOk,
      DeleteCategories;
    var moved := db.(tags := MoveTags(db.tags, c, other), groups := MoveGroups(db.groups, c, other));
    NothingDanglesEither(db);
    MovedTagsStayOk(db.categories, db.tags, c, other);
    DeletedCategoriesAreGone(moved, {c});
    var next := DeleteCategories(moved, {c});
    assert next.members == db.members;
    assert next.links == db.links;
    assert next.tags.Keys == db.tags.Keys && next.groups.Keys == db.groups.Keys;
  }

  lemma MovedTagsStayOk(categories: map<Id, Category>, tags: map<Id, Tag>, c: Id, other: Id)
    requires TagsOk(categories, tags) && other in categories
    ensures TagsOk(categories, MoveTags(tags, c, other))
  {
    forall t | t in tags
      ensures ParentOk(MoveTags(tags, c, other), t)
    {
      assert ParentOk(tags, t);
    }
  }

  lemma DoomedCarryCategory(db: Db, u: UserId, c: Id, e: Id)
    requires LinksOk(db.categories, db.tags, db.events, db.links) && OwnsCategory(db, u, c)
    ensures e in EventsOf(db.events, u) * EventsTagged(db.links, TagsIn(db.tags, {c}))
            <==> e in db.events && CarriesCategory(db, c, e)
  {
    if CarriesCategory(db, c, e) {
      var l :| l in db.links && l.event == e && l.tag in db.tags && db.tags[l.tag].key.category == c;
      assert db.events[e].user == l.user == u;
    }
    hide LinksOk;
  }

  // What is left of the events and links first, and then of the category
  ghost predicate EventsGone(db: Db, rest: Db, c: Id, deleteEvents: bool) {
    && rest == db.(events := rest.events, links := rest.links)
    && (forall e :: e in rest.events <==> e in db.events && !(deleteEvents && CarriesCategory(db, c, e)))
    && (forall e | e in rest.events :: rest.events[e] == db.events[e])
    && (forall l :: l in rest.links <==> l in db.links && l.event in rest.events)
  }

  lemma GoneAfterEvents(db: Db, rest: Db, next: Db, c: Id, deleteEvents: bool)
    requires EventsGone(db, rest, c, deleteEvents) && CategoriesGone(rest, next, {c})
    requires forall m | m in db.members :: m.tag in db.tags && m.group in db.groups
                                           && db.tags[m.tag].key.category == db.groups[m.group].category
    ensures CategoryGone(db, next, c, deleteEvents)
  {
    hide CarriesCategory;
  }

  lemma DeletedIsGone(db: Db, u: UserId, c: Id, deleteEvents: bool)
    requires Aggregate(db) && OwnsCategory(db, u, c)
    ensures var doomed := EventsOf(db.events, u) * EventsTagged(db.links, TagsIn(db.tags, {c}));
            CategoryGone(db, DeleteCategories(if deleteEvents then DeleteEvents(db, doomed) else db, {c}), c,
                deleteEvents)
  {
    hide CategoriesOk, DefaultsOk, TagsOk, TagNamesUnique, GroupsOk, KeysUnique, MembersOk, EventsOk, LinksOk,
      DeleteCategories, EventsOf, EventsTagged, TagsIn, CarriesCategory, DeleteEvents, OwnsCategory, CategoryGone,
      CategoriesGone;
    var doomed := EventsOf(db.events, u) * EventsTagged(db.links, TagsIn(db.tags, {c}));
    NothingDanglesEither(db);
    forall e
      ensures e in doomed <==> e in db.events && CarriesCategory(db, c, e)
    {
      DoomedCarryCategory(db, u, c, e);
    }
    var rest := if deleteEvents then DeleteEvents(db, doomed) else db;
    RestAfter(db, doomed, deleteEvents, rest);
    assert EventsGone(db, rest, c, deleteEvents);
    DeletedCategoriesAreGone(rest, {c});
    GoneAfterEvents(db, rest, DeleteCategories(rest, {c}), c, deleteEvents);
  }

  // A foreign category is not found and a locked one forbidden. Moving would repeat a name or an
  // index, or takes the tags and groups to the user's others, memberships, events and links
  // being as they were; deleting takes the tags, groups and memberships of the category, and
  // the events carrying any of its tags if asked
  lemma DeleteCategoryDoes(db: Db, u: UserId, c: Id, moveTags: bool, deleteEvents: bool)
    requires Aggregate(db) && u in db.users
    ensures var (next, outcome) := DeleteCategory(db, u, c, moveTags, deleteEvents);
            var own := c in db.categories && db.categories[c].user == u;
            var allowed := own && !db.categories[c].locked;
            && (outcome == NotFound <==> !own) && (outcome == Forbidden <==> own && !allowed)
            && (outcome == NameTaken <==>
                  allowed && moveTags && exists would, other ::
                      CategoryMoved(db, would, c, other) && IsKind(db, u, Other, other)
                      && !(TagNamesUnique(would.tags) && KeysUnique(would.groups)))
            && outcome in {NotFound, Forbidden, NameTaken, Done(c)}
            && (outcome.Done? && moveTags ==>
                  exists other :: IsKind(db, u, Other, other) && CategoryMoved(db, next, c, other))
            && (outcome.Done? && !moveTags ==> CategoryGone(db, next, c, deleteEvents))
            && (!outcome.Done? ==> next == db)
  {
    if OwnsCategory(db, u, c) && !db.categories[c].locked {
      if moveTags {
        MoveDoes(db, u, c, deleteEvents);
      } else {
        DeletedIsGone(db, u, c, deleteEvents);
        hide Aggregate, CategoryGone, DeleteCategories, DeleteEvents, EventsOf, EventsTagged, TagsIn;
      }
    }
  }

  // There is one category of kind Other, and it is locked
  lemma TheOthers(db: Db, u: UserId)
    requires Aggregate(db) && u in db.users
    ensures HasKind(db.categories, u, Other)
    ensures forall c | IsKind(db, u, Other, c) :: c == CategoryOfKind(db, u, Other) && db.categories[c].locked
  {
    hide TagsOk, TagNamesUnique, GroupsOk, KeysUnique, MembersOk, EventsOk, LinksOk;
    assert HasKind(db.categories, u, Other);
    var other := CategoryOfKind(db, u, Other);
    forall c | IsKind(db, u, Other, c)
      ensures c == other && db.categories[c].locked
    {
      assert CategoryOk(db.users, db.categories[c]);
      assert c == other || Apart(db.categories[c], db.categories[other]);
    }
  }

  lemma MoveDoes(db: Db, u: UserId, c: Id, deleteEvents: bool)
    requires Aggregate(db) && u in db.users && OwnsCategory(db, u, c) && !db.categories[c].locked
    ensures var (next, outcome) := DeleteCategory(db, u, c, true, deleteEvents);
            && (outcome == NameTaken <==>
                exists would, other :: CategoryMoved(db, would, c, other) && IsKind(db, u, Other, other)
                                       && !(TagNamesUnique(would.tags) && KeysUnique(would.groups)))
            && outcome in {NameTaken, Done(c)}
            && (outcome.Done? ==> exists other :: IsKind(db, u, Other, other) && CategoryMoved(db, next, c, other))
            && (!outcome.Done? ==> next == db)
  {
    TheOthers(db, u);
    var other := CategoryOfKind(db, u, Other);
    MovedAwayIsMoved(db, c, other);
    hide Aggregate, DeleteCategories, TagNamesUnique, KeysUnique, HasKind, CategoryMoved;
    var moved := db.(tags := MoveTags(db.tags, c, other), groups := MoveGroups(db.groups, c, other));
    forall would, o | CategoryMoved(db, would, c, o) && IsKind(db, u, Other, o)
      ensures would.tags == moved.tags && would.groups == moved.groups
    {
      MovedIsOne(db, would, c, other);
    }
    MovedIsOne(db, DeleteCategories(moved, {c}), c, other);
  }

  lemma MovedIsOne(db: Db, would: Db, c: Id, other: Id)
    requires CategoryMoved(db, would, c, other)
    ensures would.tags == MoveTags(db.tags, c, other) && would.groups == MoveGroups(db.groups, c, other)
  {
    forall t | t in db.tags
      ensures would.tags[t] == MoveTags(db.tags, c, other)[t]
    {
      assert KeyMoved(db.tags[t].key, would.tags[t].key, c, other);
    }
  }

  // ---- Tag groups ----

  ghost predicate GroupFits(env: Env, db: Db, u: UserId, c: Id, req: GroupRequest) {
    var on := u in db.users && db.users[u].e2ee;
    && c in db.categories && db.categories[c].user == u && db.categories[c].kind != Date
    && |req.members| > 0
    && (forall i | 0 <= i < |req.members| :: req.members[i] in db.tags && db.tags[req.members[i]].parent == None
                                            && db.tags[req.members[i]].key.category == c)
    && (if on then IsBlob(req.name) && req.index.Some? && IsIndex(req.index.value)
        else !IsReserved(TitleCase(env.alphabet, req.name)))
  }

  ghost predicate GroupKeyIs(env: Env, db: Db, u: UserId, c: Id, req: GroupRequest, groups: map<Id, Key>, g: Id) {
    && g in groups && groups[g].category == c && SaysName(env, E2ee(db, u), u, groups[g].name, req.name)
    && KeepsIndex(E2ee(db, u), groups[g].index, req.index)
  }

  ghost predicate GroupWritten(env: Env, db: Db, next: Db, u: UserId, g: Id, c: Id, req: GroupRequest) {
    && next == db.(groups := next.groups, members := next.members) && next.groups.Keys == db.groups.Keys + {g}
    && (forall h | h in db.groups && h != g :: next.groups[h] == db.groups[h])
    && GroupKeyIs(env, db, u, c, req, next.groups, g)
    && (forall m :: m in next.members <==> if m.group == g then m.tag in req.members else m in db.members)
  }

  lemma FitsIsGroupAccepted(env: Env, db: Db, u: UserId, c: Id, req: GroupRequest)
    ensures GroupFits(env, db, u, c, req) <==> GroupAccepted(env, db, u, c, req)
  {
    hide TitleCase, IsBlob, IsReserved, IsIndex;
    assert forall i | 0 <= i < |req.members| :: req.members[i] in req.members;
  }

  lemma PutIsWritten(env: Env, db: Db, u: UserId, g: Id, c: Id, req: GroupRequest, would: Db)
    requires Sound(env.cipher) && NameToStore(env, db, u, req.name).Some?
    ensures GroupWritten(env, db, would, u, g, c, req)
            <==> would == PutGroup(db, g, StoredGroup(env, db, u, c, req), req.members)
  {
    StoredKeySays(env, db, u, c, req, would.groups, g);
    hide SaysName, NameToStore, StoredGroup, KeepsIndex;
    var put := PutGroup(db, g, StoredGroup(env, db, u, c, req), req.members);
    assert forall m :: m in put.members <==> if m.group == g then m.tag in req.members else m in db.members;
    if GroupWritten(env, db, would, u, g, c, req) {
      assert would.groups == put.groups;
      assert would.members == put.members;
    }
  }

  lemma StoredKeySays(env: Env, db: Db, u: UserId, c: Id, req: GroupRequest, groups: map<Id, Key>, g: Id)
    requires Sound(env.cipher) && NameToStore(env, db, u, req.name).Some?
    ensures var key := StoredGroup(env, db, u, c, req);
            && key.category == c && SaysName(env, E2ee(db, u), u, key.name, req.name)
            && KeepsIndex(E2ee(db, u), key.index, req.index)
            && (GroupKeyIs(env, db, u, c, req, groups, g) ==> groups[g] == key)
  {
    EncSays(env, u, req.name);
    hide TitleCase, IsBlob, IsReserved, AtRest;
    if g in groups && SaysName(env, E2ee(db, u), u, groups[g].name, req.name) {
      SayingIsOne(env, E2ee(db, u), u, groups[g].name, StoredGroup(env, db, u, c, req).name, req.name);
    }
  }

  // A group is refused, or would repeat a name or an index of its category, or holds exactly
  // the members sent, and nothing else changes
  lemma CreateGroupDoes(env: Env, db: Db, u: UserId, id: Id, c: Id, req: GroupRequest)
    requires Sound(env.cipher)
    ensures var (next, outcome) := CreateGroup(env, db, u, id, c, req);
            var fits := GroupFits(env, db, u, c, req);
            && (outcome == BadRequest <==> !fits)
            && (outcome == NameTaken <==>
                  fits && exists would :: GroupWritten(env, db, would, u, id, c, req) && !KeysUnique(would.groups))
            && outcome in {BadRequest, NameTaken, Done(id)}
            && (outcome.Done? ==> GroupWritten(env, db, next, u, id, c, req) && KeysUnique(next.groups))
            && (!outcome.Done? ==> next == db)
  {
    FitsIsGroupAccepted(env, db, u, c, req);
    hide GroupFits, GroupWritten, KeysUnique, PutGroup, StoredGroup, NameToStore, IndexAccepted;
    if GroupAccepted(env, db, u, c, req) {
      var put := PutGroup(db, id, StoredGroup(env, db, u, c, req), req.members);
      forall would
        ensures GroupWritten(env, db, would, u, id, c, req) <==> would == put
      {
        PutIsWritten(env, db, u, id, c, req, would);
      }
      assert GroupWritten(env, db, put, u, id, c, req);
    }
  }

  // The same for a group that stands, which stays in its category
  lemma UpdateGroupDoes(env: Env, db: Db, u: UserId, g: Id, req: GroupRequest)
    requires Sound(env.cipher)
    ensures var (next, outcome) := UpdateGroup(env, db, u, g, req);
            var fits := g in db.groups && GroupFits(env, db, u, db.groups[g].category, req);
            && (outcome == BadRequest <==> !fits)
            && (outcome == NameTaken <==>
                  fits && exists would ::
                      GroupWritten(env, db, would, u, g, db.groups[g].category, req) && !KeysUnique(would.groups))
            && outcome in {BadRequest, NameTaken, Done(g)}
            && (outcome.Done? ==>
                  GroupWritten(env, db, next, u, g, db.groups[g].category, req) && KeysUnique(next.groups))
            && (!outcome.Done? ==> next == db)
  {
    if g in db.groups {
      var c := db.groups[g].category;
      FitsIsGroupAccepted(env, db, u, c, req);
      hide GroupFits, GroupWritten, KeysUnique, PutGroup, StoredGroup, NameToStore, IndexAccepted;
      if GroupAccepted(env, db, u, c, req) {
        var put := PutGroup(db, g, StoredGroup(env, db, u, c, req), req.members);
        forall would
          ensures GroupWritten(env, db, would, u, g, c, req) <==> would == put
        {
          PutIsWritten(env, db, u, g, c, req, would);
        }
        assert GroupWritten(env, db, put, u, g, c, req);
      }
    }
  }

  // A group goes with its memberships alone
  lemma DeleteGroupDoes(db: Db, u: UserId, g: Id)
    ensures var (next, outcome) := DeleteGroup(db, u, g);
            && outcome == (if g in db.groups && OwnsCategory(db, u, db.groups[g].category) then Done(g) else NotFound)
            && (outcome.Done? ==>
                  && next == db.(groups := next.groups, members := next.members)
                  && next.groups.Keys == db.groups.Keys - {g}
                  && (forall h | h in next.groups :: next.groups[h] == db.groups[h])
                  && (forall m :: m in next.members <==> m in db.members && m.group != g))
            && (!outcome.Done? ==> next == db)
  {
  }

  // ---- Users ----

  ghost predicate Seed(env: Env, categories: map<Id, Category>, u: UserId, c: Id, kind: Kind, locked: bool,
                       text: string) {
    && c in categories && categories[c] == Category(u, kind, locked, categories[c].name, None)
    && SaysText(env, false, u, categories[c].name, text)
  }

  // An account without E2EE and with its three first categories, whatever else there is
  ghost predicate Afresh(env: Env, next: Db, u: UserId, dates: Id, persons: Id, others: Id) {
    && u in next.users && next.users[u] == User(false, None)
    && Seed(env, next.categories, u, dates, Date, true, "Dates")
    && Seed(env, next.categories, u, persons, Person, false, "Persons")
    && Seed(env, next.categories, u, others, Other, true, "Others")
  }

  lemma SeedsAreAfresh(env: Env, db: Db, u: UserId, dates: Id, persons: Id, others: Id)
    requires Sound(env.cipher) && dates != persons && persons != others && dates != others
    ensures Afresh(env, Register(env, db, u, dates, persons, others).0, u, dates, persons, others)
  {
    EncSays(env, u, "Dates");
    EncSays(env, u, "Persons");
    EncSays(env, u, "Others");
    hide TitleCase, AtRest;
  }

  lemma RegisterDoes(env: Env, db: Db, u: UserId, dates: Id, persons: Id, others: Id)
    requires Sound(env.cipher) && NewIds(db, dates, persons, others)
    ensures var (next, outcome) := Register(env, db, u, dates, persons, others);
            && outcome == Done(u) && next == db.(users := next.users, categories := next.categories)
            && next.users.Keys == db.users.Keys + {u}
            && (forall v | v in db.users && v != u :: next.users[v] == db.users[v])
            && next.categories.Keys == db.categories.Keys + {dates, persons, others}
            && (forall c | c in db.categories :: next.categories[c] == db.categories[c])
            && Afresh(env, next, u, dates, persons, others)
  {
    SeedsAreAfresh(env, db, u, dates, persons, others);
    hide Seeds, Afresh;
  }

  ghost predicate OtherEventsLeft(db: Db, next: Db, u: UserId) {
    && (forall e :: e in next.events <==> e in db.events && db.events[e].user != u)
    && (forall e | e in next.events :: next.events[e] == db.events[e])
    && (forall l :: l in next.links <==> l in db.links && l.user != u)
  }

  // What is left of everyone but one user, and nothing else
  ghost predicate OthersLeft(db: Db, next: Db, u: UserId, seeds: set<Id>) {
    && next.users.Keys == db.users.Keys && (forall v | v in db.users && v != u :: next.users[v] == db.users[v])
    && (forall c :: c in next.categories <==> c in seeds || (c in db.categories && db.categories[c].user != u))
    && (forall c | c in next.categories && c !in seeds :: next.categories[c] == db.categories[c])
    && (forall t :: t in next.tags <==> t in db.tags && !OwnsTag(db.categories, db.tags, u, t))
    && (forall t | t in next.tags :: next.tags[t] == db.tags[t])
    && (forall g :: g in next.groups <==> g in db.groups && !OwnsGroup(db, u, g))
    && (forall g | g in next.groups :: next.groups[g] == db.groups[g])
    && (forall m :: m in next.members <==> m in db.members && m.group in next.groups)
    && OtherEventsLeft(db, next, u)
  }

  lemma OwnGoneLeavesEvents(db: Db, rest: Db, bare: Db, u: UserId)
    requires rest == DeleteEvents(db, EventsOf(db.events, u))
    requires CategoriesGone(rest, bare, CategoriesOf(db.categories, u))
    requires forall l | l in db.links :: l.event in db.events && db.events[l.event].user == l.user
                                         && OwnsTag(db.categories, db.tags, l.user, l.tag)
    ensures OtherEventsLeft(db, bare, u)
  {
    forall l
      ensures l in bare.links <==> l in db.links && l.user != u
    {
      assert l in bare.links <==> l in rest.links && l.tag in bare.tags;
    }
  }

  lemma OwnGoneLeavesOthers(db: Db, rest: Db, bare: Db, u: UserId)
    requires rest == db.(events := rest.events, links := rest.links)
    requires CategoriesGone(rest, bare, CategoriesOf(db.categories, u)) && OtherEventsLeft(db, bare, u)
    requires forall t | t in db.tags :: db.tags[t].key.category in db.categories
    requires forall g | g in db.groups :: db.groups[g].category in db.categories
    requires forall m | m in db.members :: m.tag in db.tags && m.group in db.groups
                                           && db.tags[m.tag].key.category == db.groups[m.group].category
    ensures OthersLeft(db, bare, u, {})
  {
    hide OtherEventsLeft;
  }

  lemma BareLeavesOthers(db: Db, u: UserId)
    requires Aggregate(db)
    ensures OthersLeft(db,
                DeleteCategories(DeleteEvents(db, EventsOf(db.events, u)), CategoriesOf(db.categories, u)), u, {})
  {
    hide CategoriesOk, DefaultsOk, TagNamesUnique, KeysUnique, MembersOk, EventsOk, LinksOk, OthersLeft,
      OtherEventsLeft, CategoriesGone, DeleteCategories, EventsOf, CategoriesOf, OwnsTag;
    var rest := DeleteEvents(db, EventsOf(db.events, u));
    NothingDanglesEither(db);
    LinksAreOwn(db);
    DeletedCategoriesAreGone(rest, CategoriesOf(db.categories, u));
    OwnGoneLeavesEvents(db, rest, DeleteCategories(rest, CategoriesOf(db.categories, u)), u);
    OwnGoneLeavesOthers(db, rest, DeleteCategories(rest, CategoriesOf(db.categories, u)), u);
  }

  lemma LinksAreOwn(db: Db)
    requires Aggregate(db)
    ensures forall l | l in db.links :: l.event in db.events && db.events[l.event].user == l.user
                                        && OwnsTag(db.categories, db.tags, l.user, l.tag)
  {
    hide CategoriesOk, DefaultsOk, TagsOk, TagNamesUnique, GroupsOk, KeysUnique, EventsOk, MembersOk;
  }

  // Seeds are new rows
  lemma SeedsAreAdded(env: Env, bare: Db, u: UserId, dates: Id, persons: Id, others: Id)
    requires NewIds(bare, dates, persons, others)
    ensures var next := Register(env, bare, u, dates, persons, others).0;
            && next == bare.(users := bare.users[u := next.users[u]], categories := next.categories)
            && next.categories.Keys == bare.categories.Keys + {dates, persons, others}
            && forall c | c in bare.categories :: next.categories[c] == bare.categories[c]
  {
    hide Seeds;
  }

  lemma SeedsLeaveOthers(env: Env, db: Db, bare: Db, u: UserId, dates: Id, persons: Id, others: Id)
    requires u in db.users && OthersLeft(db, bare, u, {}) && NewIds(bare, dates, persons, others)
    ensures OthersLeft(db, Register(env, bare, u, dates, persons, others).0, u, {dates, persons, others})
  {
    hide OwnsTag, OwnsGroup, Register, NewIds, OtherEventsLeft;
    SeedsAreAdded(env, bare, u, dates, persons, others);
    OtherEventsStay(db, bare, Register(env, bare, u, dates, persons, others).0, u);
  }

  lemma OtherEventsStay(db: Db, bare: Db, next: Db, u: UserId)
    requires OtherEventsLeft(db, bare, u) && next.events == bare.events && next.links == bare.links
    ensures OtherEventsLeft(db, next, u)
  {
  }

  lemma RegisterIsDone(env: Env, db: Db, u: UserId, dates: Id, persons: Id, others: Id)
    ensures Register(env, db, u, dates, persons, others).1 == Done(u)
  {
  }

  // A purge without E2EE conflicts; else everything of the user goes, everything of everyone
  // else stays, and the account starts afresh
  lemma PurgeDoes(env: Env, db: Db, u: UserId, dates: Id, persons: Id, others: Id)
    requires Sound(env.cipher) && Aggregate(db) && NewIds(db, dates, persons, others)
    ensures var (next, outcome) := Purge(env, db, u, dates, persons, others);
            && outcome == (if E2ee(db, u) then Done(u) else Conflict)
            && (outcome.Done? ==>
                  OthersLeft(db, next, u, {dates, persons, others}) && Afresh(env, next, u, dates, persons, others))
            && (!outcome.Done? ==> next == db)
  {
    hide Aggregate, DeleteCategories, DeleteEvents, EventsOf, CategoriesOf, Afresh, Register;
    if E2ee(db, u) {
      var bare := DeleteCategories(DeleteEvents(db, EventsOf(db.events, u)), CategoriesOf(db.categories, u));
      BareLeavesOthers(db, u);
      SeedsAreAfresh(env, bare, u, dates, persons, others);
      SeedsLeaveOthers(env, db, bare, u, dates, persons, others);
      RegisterIsDone(env, bare, u, dates, persons, others);
      hide OthersLeft;
    }
  }
}
