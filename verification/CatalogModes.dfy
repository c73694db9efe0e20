/**
 With E2EE on, everything a user stored is what his devices encrypted; with E2EE off, it all
 is his text at rest, and no read fails to decrypt. Every use case keeps it so.
 */
module CatalogModes {
  import opened Options
  import opened Encryption
  import opened Text
  import opened Catalog
  import opened CatalogInvariant
  import opened CatalogEvents
  import DateTags

  predicate Stored(k: Cipher, on: bool, u: UserId, value: string) {
    if on then IsBlob(value) else AtRest(k, u, value)
  }

  predicate KeyMode(k: Cipher, on: bool, u: UserId, key: Key) {
    Stored(k, on, u, key.name) && if on then key.index.Some? && IsIndex(key.index.value) else key.index.None?
  }

  // An omitted description stays empty under E2EE
  predicate DescriptionMode(k: Cipher, on: bool, u: UserId, description: string) {
    (on && description == "") || Stored(k, on, u, description)
  }

  predicate UserModes(users: map<UserId, User>) {
    forall u | u in users :: if users[u].e2ee then users[u].keyCheck.Some? && IsKeyCheck(users[u].keyCheck.value)
        else users[u].keyCheck.None?
  }

  predicate On(users: map<UserId, User>, u: UserId) {
    u in users && users[u].e2ee
  }

  predicate CategoryModes(k: Cipher, users: map<UserId, User>, categories: map<Id, Category>) {
    forall c | c in categories :: Stored(k, On(users, categories[c].user), categories[c].user, categories[c].name)
  }

  predicate OwnerMode(k: Cipher, users: map<UserId, User>, categories: map<Id, Category>, key: Key) {
    key.category in categories ==>
      KeyMode(k, On(users, categories[key.category].user), categories[key.category].user, key)
  }

  predicate TagModes(k: Cipher, users: map<UserId, User>, categories: map<Id, Category>, tags: map<Id, Tag>) {
    forall t | t in tags :: OwnerMode(k, users, categories, tags[t].key)
  }

  predicate GroupModes(k: Cipher, users: map<UserId, User>, categories: map<Id, Category>, groups: map<Id, Key>) {
    forall g | g in groups :: OwnerMode(k, users, categories, groups[g])
  }

  predicate EventModes(k: Cipher, users: map<UserId, User>, events: map<Id, Event>) {
    forall e | e in events :: DescriptionMode(k, On(users, events[e].user), events[e].user, events[e].description)
  }

  predicate Modes(k: Cipher, db: Db) {
    && UserModes(db.users)
    && CategoryModes(k, db.users, db.categories)
    && TagModes(k, db.users, db.categories, db.tags)
    && GroupModes(k, db.users, db.categories, db.groups)
    && EventModes(k, db.users, db.events)
  }

  lemma EncIsAtRest(k: Cipher, u: UserId, text: string)
    requires Sound(k)
    ensures AtRest(k, u, k.enc(u, text)) && k.dec(u, k.enc(u, text)) == Some(text)
  {
  }

  lemma AcceptedNameMode(env: Env, db: Db, u: UserId, name: string, index: Option<string>, c: Id)
    requires Sound(env.cipher) && NameToStore(env, db, u, name).Some? && IndexAccepted(db, u, index)
    ensures KeyMode(env.cipher, On(db.users, u), u,
            Key(c, NameToStore(env, db, u, name).value, IndexToStore(db, u, index)))
  {
    EncIsAtRest(env.cipher, u, TitleCase(env.alphabet, name));
    hide TitleCase, IsBlob, AtRest, IsReserved, IsIndex;
  }

  // ---- Deletions ----

  // Rows may go and links may change
  ghost predicate Fewer(next: Db, db: Db) {
    && next.users == db.users
    && (forall c | c in next.categories :: c in db.categories && next.categories[c] == db.categories[c])
    && (forall t | t in next.tags :: t in db.tags && next.tags[t] == db.tags[t])
    && (forall g | g in next.groups :: g in db.groups && next.groups[g] == db.groups[g])
    && (forall e | e in next.events :: e in db.events && next.events[e] == db.events[e])
  }

  lemma FewerKeepsModes(k: Cipher, next: Db, db: Db)
    requires Modes(k, db) && Fewer(next, db)
    ensures Modes(k, next)
  {
    hide KeyMode, DescriptionMode, Stored, UserModes;
  }

  lemma DeletionsAreFewer(db: Db, dead: set<Id>)
    ensures Fewer(DeleteTags(db, dead), db) && Fewer(DeleteEvents(db, dead), db)
    ensures Fewer(DeleteGroups(db, dead), db) && Fewer(DeleteCategories(db, dead), db)
  {
  }

  lemma FewerIsTransitive(a: Db, b: Db, c: Db)
    requires Fewer(a, b) && Fewer(b, c)
    ensures Fewer(a, c)
  {
  }

  lemma DeletedKeepModes(k: Cipher, db: Db, events: set<Id>, tags: set<Id>)
    requires Modes(k, db)
    ensures Modes(k, DeleteTags(db, tags)) && Modes(k, DeleteTags(DeleteEvents(db, events), tags))
  {
    DeletionsAreFewer(db, events);
    DeletionsAreFewer(db, tags);
    DeletionsAreFewer(DeleteEvents(db, events), tags);
    hide DeleteTags, DeleteEvents, Modes, Fewer;
    FewerKeepsModes(k, DeleteTags(db, tags), db);
    FewerKeepsModes(k, DeleteEvents(db, events), db);
    FewerKeepsModes(k, DeleteTags(DeleteEvents(db, events), tags), DeleteEvents(db, events));
  }

  lemma DeleteTagKeepsModes(k: Cipher, db: Db, u: UserId, id: Id, deleteEvents: bool)
    requires Modes(k, db)
    ensures Modes(k, DeleteTag(db, u, id, deleteEvents).0)
  {
    if OwnsTag(db.categories, db.tags, u, id) {
      hide DeleteTags, DeleteEvents, Repoint, EventsTagged, SynonymGroup, UserModes, CategoryModes, TagModes,
        GroupModes, EventModes;
      if db.tags[id].parent.Some? {
        DeletedKeepModes(k, db.(links := Repoint(db.links, id, db.tags[id].parent.value)), {}, {id});
      } else {
        DeletedKeepModes(k, db, EventsOf(db.events, u) * EventsTagged(db.links, SynonymGroup(db.tags, id)), {id});
      }
    }
  }

  lemma DeleteGroupKeepsModes(k: Cipher, db: Db, u: UserId, g: Id)
    requires Modes(k, db)
    ensures Modes(k, DeleteGroup(db, u, g).0)
  {
    DeletionsAreFewer(db, {g});
    FewerKeepsModes(k, DeleteGroups(db, {g}), db);
  }

  lemma DeleteEventKeepsModes(k: Cipher, db: Db, u: UserId, e: Id)
    requires Modes(k, db)
    ensures Modes(k, CatalogEvents.DeleteEvent(db, u, e).0)
  {
    DeletionsAreFewer(db, {e});
    FewerKeepsModes(k, DeleteEvents(db, {e}), db);
  }

  // ---- Tags and tag groups ----

  lemma CreateTagKeepsModes(env: Env, db: Db, u: UserId, id: Id, req: TagRequest)
    requires Sound(env.cipher) && Modes(env.cipher, db)
    ensures Modes(env.cipher, CreateTag(env, db, u, id, req).0)
  {
    if TagAccepted(env, db, u, req.sentId, req) {
      AcceptedNameMode(env, db, u, req.name, req.index, req.category);
    }
    hide KeyMode, NameToStore, IndexAccepted, IndexToStore, ParentAccepted, TagNamesUnique, CategoryModes, GroupModes,
      EventModes, UserModes;
  }

  lemma RetagKeepsModes(k: Cipher, db: Db, u: UserId, id: Id, tag: Tag)
    requires TagModes(k, db.users, db.categories, db.tags) && TagsOk(db.categories, db.tags)
    requires OwnsTag(db.categories, db.tags, u, id) && OwnsCategory(db, u, tag.key.category)
    requires KeyMode(k, On(db.users, u), u, tag.key)
    ensures TagModes(k, db.users, db.categories, Retag(db.tags, id, tag))
  {
    hide Stored;
    forall t | t in db.tags
      ensures OwnerMode(k, db.users, db.categories, Retag(db.tags, id, tag)[t].key)
    {
      assert ParentOk(db.tags, t) && OwnerMode(k, db.users, db.categories, db.tags[t].key);
    }
  }

  lemma UpdateTagKeepsModes(env: Env, db: Db, u: UserId, id: Id, req: TagRequest)
    requires Sound(env.cipher) && Modes(env.cipher, db) && TagsOk(db.categories, db.tags)
    ensures Modes(env.cipher, UpdateTag(env, db, u, id, req).0)
  {
    hide Sound, NameToStore, IndexAccepted, IndexToStore, ParentAccepted, TagNamesUnique, CategoryModes, GroupModes,
      EventModes, UserModes, TagModes, TagsOk, KeyMode, Retag, Regroup;
    if UpdateTag(env, db, u, id, req).1.Done? {
      AcceptedNameMode(env, db, u, req.name, req.index, req.category);
      RetagKeepsModes(env.cipher, db, u, id, StoredTag(env, db, u, req));
    }
  }

  lemma PutGroupKeepsModes(env: Env, db: Db, u: UserId, g: Id, c: Id, req: GroupRequest)
    requires Sound(env.cipher) && Modes(env.cipher, db) && GroupAccepted(env, db, u, c, req)
    ensures Modes(env.cipher, PutGroup(db, g, StoredGroup(env, db, u, c, req), req.members))
  {
    AcceptedNameMode(env, db, u, req.name, req.index, c);
    hide KeyMode, NameToStore, IndexAccepted, IndexToStore, CategoryModes, TagModes, EventModes, UserModes;
  }

  lemma CreateGroupKeepsModes(env: Env, db: Db, u: UserId, id: Id, c: Id, req: GroupRequest)
    requires Sound(env.cipher) && Modes(env.cipher, db)
    ensures Modes(env.cipher, CreateGroup(env, db, u, id, c, req).0)
  {
    hide Modes, Sound, GroupAccepted, PutGroup, StoredGroup, KeysUnique;
    if GroupAccepted(env, db, u, c, req) {
      PutGroupKeepsModes(env, db, u, id, c, req);
    }
  }

  lemma UpdateGroupKeepsModes(env: Env, db: Db, u: UserId, g: Id, req: GroupRequest)
    requires Sound(env.cipher) && Modes(env.cipher, db)
    ensures Modes(env.cipher, UpdateGroup(env, db, u, g, req).0)
  {
    hide Modes, Sound, GroupAccepted, PutGroup, StoredGroup, KeysUnique;
    if OwnsGroup(db, u, g) && GroupAccepted(env, db, u, db.groups[g].category, req) {
      PutGroupKeepsModes(env, db, u, g, db.groups[g].category, req);
    }
  }

  // ---- Categories ----

  lemma PutCategoryKeepsModes(k: Cipher, db: Db, c: Id, cat: Category)
    requires Modes(k, db) && (c in db.categories ==> db.categories[c].user == cat.user)
    requires c !in db.categories ==> GroupsIn(db.groups, {c}) == {} && TagsIn(db.tags, {c}) == {}
    requires Stored(k, On(db.users, cat.user), cat.user, cat.name)
    ensures Modes(k, db.(categories := db.categories[c := cat]))
  {
    hide KeyMode, Stored, EventModes, UserModes;
    forall t | t in db.tags && db.tags[t].key.category == c
      ensures c in db.categories
    {
      assert t in TagsIn(db.tags, {c});
    }
    forall g | g in db.groups && db.groups[g].category == c
      ensures c in db.categories
    {
      assert g in GroupsIn(db.groups, {c});
    }
  }

  lemma CategoryNameMode(env: Env, db: Db, u: UserId, name: string)
    requires Sound(env.cipher) && CategoryName(env, db, u, name).Some?
    ensures Stored(env.cipher, On(db.users, u), u, CategoryName(env, db, u, name).value)
  {
    EncIsAtRest(env.cipher, u, TitleCase(env.alphabet, name));
    hide TitleCase, IsBlob, AtRest;
  }

  lemma NothingInNewCategory(db: Db, id: Id)
    requires TagsOk(db.categories, db.tags) && GroupsOk(db.categories, db.groups) && id !in db.categories
    ensures GroupsIn(db.groups, {id}) == {} && TagsIn(db.tags, {id}) == {}
  {
    hide ParentOk;
  }

  lemma CreateCategoryKeepsModes(env: Env, db: Db, u: UserId, id: Id, req: CategoryRequest)
    requires Sound(env.cipher) && Modes(env.cipher, db) && Aggregate(db) && id !in db.categories
    ensures Modes(env.cipher, CreateCategory(env, db, u, id, req).0)
  {
    hide Modes, Sound, CategoryName, Stored, CategoryCreated, CategoriesOk, DefaultsOk, TagsOk, TagNamesUnique,
      GroupsOk, KeysUnique, MembersOk, EventsOk, LinksOk, GroupsIn, TagsIn;
    if CreateCategory(env, db, u, id, req).1.Done? {
      CategoryNameMode(env, db, u, req.name);
      NothingInNewCategory(db, id);
      PutCategoryKeepsModes(env.cipher, db, id,
          Category(u, Custom, false, CategoryName(env, db, u, req.name).value, req.clientId));
    }
  }

  lemma UpdateCategoryKeepsModes(env: Env, db: Db, u: UserId, c: Id, name: string)
    requires Sound(env.cipher) && Modes(env.cipher, db)
    ensures Modes(env.cipher, UpdateCategory(env, db, u, c, name).0)
  {
    hide Modes, Sound, CategoryName, Stored;
    if UpdateCategory(env, db, u, c, name).1.Done? {
      CategoryNameMode(env, db, u, name);
      PutCategoryKeepsModes(env.cipher, db, c, db.categories[c].(name := CategoryName(env, db, u, name).value));
    }
  }

  lemma MoveKeepsModes(k: Cipher, db: Db, from: Id, to: Id)
    requires Modes(k, db) && from in db.categories && to in db.categories
    requires db.categories[from].user == db.categories[to].user
    ensures Modes(k, db.(tags := MoveTags(db.tags, from, to), groups := MoveGroups(db.groups, from, to)))
  {
    hide Stored, EventModes, UserModes, CategoryModes;
  }

  lemma DeleteCategoryKeepsModes(k: Cipher, db: Db, u: UserId, c: Id, moveTags: bool, deleteEvents: bool)
    requires Modes(k, db)
    ensures Modes(k, DeleteCategory(db, u, c, moveTags, deleteEvents).0)
  {
    hide Modes, Fewer, DeleteCategories, DeleteEvents, MoveTags, MoveGroups, TagNamesUnique, KeysUnique, HasKind;
    if DeleteCategory(db, u, c, moveTags, deleteEvents).1.Done? {
      if moveTags {
        var other := CategoryOfKind(db, u, Other);
        var moved := db.(tags := MoveTags(db.tags, c, other), groups := MoveGroups(db.groups, c, other));
        MoveKeepsModes(k, db, c, other);
        DeletionsAreFewer(moved, {c});
        FewerKeepsModes(k, DeleteCategories(moved, {c}), moved);
      } else {
        var doomed := EventsOf(db.events, u) * EventsTagged(db.links, TagsIn(db.tags, {c}));
        var rest := if deleteEvents then DeleteEvents(db, doomed) else db;
        DeletionsAreFewer(db, doomed);
        DeletionsAreFewer(rest, {c});
        if deleteEvents {
          FewerKeepsModes(k, rest, db);
        }
        FewerKeepsModes(k, DeleteCategories(rest, {c}), rest);
      }
    }
  }

  // ---- Users ----

  predicate SeedModes(k: Cipher, users: map<UserId, User>, u: UserId, seeds: map<Id, Category>) {
    forall c | c in seeds :: seeds[c].user == u && Stored(k, On(users, u), u, seeds[c].name)
  }

  lemma SeedsModes(env: Env, users: map<UserId, User>, u: UserId, dates: Id, persons: Id, others: Id)
    requires Sound(env.cipher) && !On(users, u)
    ensures SeedModes(env.cipher, users, u, Seeds(env, u, dates, persons, others))
  {
    EncIsAtRest(env.cipher, u, "Dates");
    EncIsAtRest(env.cipher, u, "Persons");
    EncIsAtRest(env.cipher, u, "Others");
    hide AtRest;
  }

  lemma NewUserModes(k: Cipher, users: map<UserId, User>, db: Db, u: UserId)
    requires users == db.users[u := User(false, None)] && Modes(k, db)
    requires EventsOf(db.events, u) == {} && forall c | c in db.categories :: db.categories[c].user != u
    ensures Modes(k, db.(users := users))
  {
    hide Stored, KeyMode, DescriptionMode;
    forall e | e in db.events
      ensures db.events[e].user != u
    {
      assert e !in EventsOf(db.events, u);
    }
    hide EventsOf;
  }

  lemma MoreCategoriesModes(k: Cipher, db: Db, seeds: map<Id, Category>, u: UserId)
    requires Modes(k, db) && TagsOk(db.categories, db.tags) && GroupsOk(db.categories, db.groups)
             && seeds.Keys !! db.categories.Keys
    requires SeedModes(k, db.users, u, seeds)
    ensures Modes(k, db.(categories := db.categories + seeds))
  {
    var more := db.categories + seeds;
    assert forall c | c in db.categories :: c in more && more[c] == db.categories[c];
    hide Stored, KeyMode, EventModes, UserModes, ParentOk;
  }

  // Where the user has nothing left, starting afresh without E2EE is in order
  lemma RegisterKeepsModes(env: Env, db: Db, u: UserId, dates: Id, persons: Id, others: Id)
    requires Sound(env.cipher) && Modes(env.cipher, db) && Bare(db, u) && NewIds(db, dates, persons, others)
    requires EventsOf(db.events, u) == {}
    ensures Modes(env.cipher, Register(env, db, u, dates, persons, others).0)
  {
    hide Sound, Seeds, SeedModes, Stored, Modes, CategoriesOk, HasKind, TagsOk, TagNamesUnique, GroupsOk, KeysUnique,
      MembersOk, EventsOk, LinksOk, EventsOf;
    var users := db.users[u := User(false, None)];
    SeedsModes(env, users, u, dates, persons, others);
    NewUserModes(env.cipher, users, db, u);
    MoreCategoriesModes(env.cipher, db.(users := users), Seeds(env, u, dates, persons, others), u);
  }

  lemma PurgeKeepsModes(env: Env, db: Db, u: UserId, dates: Id, persons: Id, others: Id)
    requires Sound(env.cipher) && Modes(env.cipher, db) && Aggregate(db) && NewIds(db, dates, persons, others)
    ensures Modes(env.cipher, Purge(env, db, u, dates, persons, others).0)
  {
    var eventless := DeleteEvents(db, EventsOf(db.events, u));
    var bare := DeleteCategories(eventless, CategoriesOf(db.categories, u));
    assert EventsOf(bare.events, u) == {};
    PurgeBares(db, u);
    DeletionsAreFewer(db, EventsOf(db.events, u));
    DeletionsAreFewer(eventless, CategoriesOf(db.categories, u));
    assert NewIds(bare, dates, persons, others);
    hide Modes, Sound, Bare, Fewer, DeleteEvents, DeleteCategories, EventsOf, Aggregate, NewIds, Register;
    FewerKeepsModes(env.cipher, eventless, db);
    FewerKeepsModes(env.cipher, bare, eventless);
    RegisterKeepsModes(env, bare, u, dates, persons, others);
  }

  // ---- Events ----

  lemma WriteEventKeepsModes(env: Env, db: Db, u: UserId, e: Id, event: Event, clientTags: seq<Id>,
                             list: seq<DateTag>, ids: seq<Id>, dates: Id)
    requires Sound(env.cipher) && Modes(env.cipher, db) && TagNamesUnique(db.tags) && |ids| == |list|
    requires event.user == u && DescriptionMode(env.cipher, On(db.users, u), u, event.description)
    requires list != [] ==> !On(db.users, u) && OwnsCategory(db, u, dates)
    requires InDates(list, dates) && NewTagIds(db, ids)
    ensures Modes(env.cipher, WriteEvent(env, db, u, e, event, clientTags, list, ids).0)
  {
    var (more, made) := CreateAll(env, db.tags, u, list, ids);
    CreatedAreAtRest(env, db.tags, u, list, ids, dates);
    hide Stored, CreateAll, UserModes, CategoryModes, GroupModes, LinksTo, DescriptionMode, TagNamesUnique;
  }

  lemma DescriptionIsStored(env: Env, db: Db, u: UserId, description: string)
    requires Sound(env.cipher) && (E2ee(db, u) ==> description == "" || IsBlob(description))
    ensures DescriptionMode(env.cipher, On(db.users, u), u, StoredDescription(env, db, u, description))
  {
    EncIsAtRest(env.cipher, u, description);
    hide IsBlob, AtRest;
  }

  lemma AcceptedWriteKeepsModes(env: Env, db: Db, u: UserId, e: Id, event: Event, req: EventRequest,
                                names: seq<string>, ids: seq<Id>)
    requires Sound(env.cipher) && Modes(env.cipher, db) && TagNamesUnique(db.tags) && HasKind(db.categories, u, Date)
    requires |ids| == |names| && NewTagIds(db, ids) && EventAccepted(db, u, req)
    requires event.user == u && event.description == StoredDescription(env, db, u, req.description)
    ensures var list := DateTagsFor(env, db, u, names);
            Modes(env.cipher, WriteEvent(env, db, u, e, event, req.tags, list, ids[..|list|]).0)
  {
    DescriptionIsStored(env, db, u, req.description);
    LookedUpAreOwned(env, db, u, names);
    var list := DateTagsFor(env, db, u, names);
    assert list != [] ==> !On(db.users, u);
    assert NewTagIds(db, ids[..|list|]);
    hide Sound, Modes, TagNamesUnique, HasKind, NewTagIds, EventAccepted, WriteEvent, DateTagsFor, InDates,
      DescriptionMode, StoredDescription;
    WriteEventKeepsModes(env, db, u, e, event, req.tags, list, ids[..|list|], CategoryOfKind(db, u, Date));
  }

  lemma CreateEventKeepsModes(env: Env, db: Db, u: UserId, e: Id, req: EventRequest, names: seq<string>, ids: seq<Id>)
    requires Sound(env.cipher) && Modes(env.cipher, db) && TagNamesUnique(db.tags) && HasKind(db.categories, u, Date)
    requires |ids| == |names| && NewTagIds(db, ids)
    ensures Modes(env.cipher, CreateEvent(env, db, u, e, req, names, ids).0)
  {
    hide Sound, Modes, TagNamesUnique, HasKind, NewTagIds, EventAccepted, WriteEvent, DateTagsFor, StoredDescription,
      EventCreated;
    if EventAccepted(db, u, req) {
      AcceptedWriteKeepsModes(env, db, u, e,
          Event(u, StoredDescription(env, db, u, req.description), DateTags.Normalised(req.period), req.clientId),
                              req, names, ids);
    }
  }

  lemma UpdateEventKeepsModes(env: Env, db: Db, u: UserId, e: Id, req: EventRequest, names: seq<string>, ids: seq<Id>)
    requires Sound(env.cipher) && Modes(env.cipher, db) && TagNamesUnique(db.tags) && HasKind(db.categories, u, Date)
    requires |ids| == |names| && NewTagIds(db, ids)
    ensures Modes(env.cipher, UpdateEvent(env, db, u, e, req, names, ids).0)
  {
    hide Sound, Modes, TagNamesUnique, HasKind, NewTagIds, EventAccepted, WriteEvent, DateTagsFor, StoredDescription;
    if EventAccepted(db, u, req) && e in db.events {
      AcceptedWriteKeepsModes(env, db, u, e,
          Event(u, StoredDescription(env, db, u, req.description), DateTags.Normalised(req.period),
          db.events[e].clientId),
                              req, names, ids);
    }
  }

  // The rows the upserts add are at rest
  lemma {:induction false} CreatedAreAtRest(env: Env, tags: map<Id, Tag>, u: UserId, list: seq<DateTag>, ids: seq<Id>,
                                            dates: Id)
    requires Sound(env.cipher) && |ids| == |list| && InDates(list, dates)
    ensures var (more, made) := CreateAll(env, tags, u, list, ids);
            forall t | t in more && (t !in tags || more[t] != tags[t]) ::
              list != [] && more[t].key.category == dates && KeyMode(env.cipher, false, u, more[t].key)
    decreases |list|
  {
    if list != [] {
      var n := |list| - 1;
      CreatedAreAtRest(env, tags, u, list[..n], ids[..n], dates);
      assert list[n] in list;
      if list[n].Missing? {
        EncIsAtRest(env.cipher, u, list[n].name);
      }
    }
  }
}
