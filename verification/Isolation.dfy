/** No use case of one user changes, adds or deletes a row of another. */
module Isolation {
  import opened Options
  import opened Encryption
  import opened Catalog
  import opened CatalogInvariant
  import opened CatalogEvents
  import opened CatalogRuns
  import opened Migration
  import opened StoredValues
  import opened TagEffects
  import opened CategoryEffects
  import opened MigrationEffects
  import opened StaleModes
  import DateTags

  // The account and the rows of one user
  function Own(db: Db, v: UserId): Db {
    Db(map u | u in db.users && u == v :: db.users[u],
       map c | c in db.categories && OwnsCategory(db, v, c) :: db.categories[c],
       map t | t in db.tags && OwnsCategory(db, v, db.tags[t].key.category) :: db.tags[t],
       map g | g in db.groups && OwnsCategory(db, v, db.groups[g].category) :: db.groups[g],
       set m | m in db.members && OwnsGroup(db, v, m.group),
       map e | e in db.events && db.events[e].user == v :: db.events[e],
       set l | l in db.links && l.user == v)
  }

  // Where the rows of a consistent database lie
  ghost predicate Placed(db: Db) {
    && (forall t | t in db.tags :: db.tags[t].key.category in db.categories)
    && (forall t | t in db.tags && db.tags[t].parent.Some? ::
          && db.tags[t].parent.value in db.tags
          && db.tags[db.tags[t].parent.value].key.category == db.tags[t].key.category)
    && (forall g | g in db.groups :: db.groups[g].category in db.categories)
    && (forall m | m in db.members :: m.tag in db.tags && m.group in db.groups
                                      && db.tags[m.tag].key.category == db.groups[m.group].category)
    && (forall l | l in db.links :: l.event in db.events && db.events[l.event].user == l.user && l.tag in db.tags
                                    && OwnsCategory(db, l.user, db.tags[l.tag].key.category))
  }

  lemma AggregateIsPlaced(db: Db)
    requires Aggregate(db)
    ensures Placed(db)
  {
    NothingDanglesEither(db);
    LinksAreOwn(db);
    TagsArePlaced(db);
    GroupsArePlaced(db);
    hide Aggregate, TagsOk;
  }

  lemma TagsArePlaced(db: Db)
    requires Aggregate(db)
    ensures forall t | t in db.tags :: db.tags[t].key.category in db.categories
    ensures forall t | t in db.tags && db.tags[t].parent.Some? ::
              && db.tags[t].parent.value in db.tags
              && db.tags[db.tags[t].parent.value].key.category == db.tags[t].key.category
  {
    hide CategoriesOk, DefaultsOk, TagNamesUnique, GroupsOk, KeysUnique, MembersOk, EventsOk, LinksOk;
    forall t | t in db.tags
      ensures ParentOk(db.tags, t)
    {
    }
  }

  lemma GroupsArePlaced(db: Db)
    requires Aggregate(db)
    ensures forall g | g in db.groups :: db.groups[g].category in db.categories
  {
    hide CategoriesOk, DefaultsOk, TagsOk, TagNamesUnique, KeysUnique, MembersOk, EventsOk, LinksOk;
  }

  // ---- One table at a time ----

  ghost predicate SameCategories(db: Db, next: Db, v: UserId) {
    forall c :: (OwnsCategory(next, v, c) <==> OwnsCategory(db, v, c))
                && (OwnsCategory(db, v, c) ==> next.categories[c] == db.categories[c])
  }

  ghost predicate SameTags(db: Db, next: Db, v: UserId) {
    && (forall t | t in db.tags && OwnsCategory(db, v, db.tags[t].key.category) ::
          t in next.tags && next.tags[t] == db.tags[t])
    && (forall t | t in next.tags && OwnsCategory(db, v, next.tags[t].key.category) ::
          t in db.tags && next.tags[t] == db.tags[t])
  }

  ghost predicate SameGroups(db: Db, next: Db, v: UserId) {
    && (forall g | g in db.groups && OwnsCategory(db, v, db.groups[g].category) ::
          g in next.groups && next.groups[g] == db.groups[g])
    && (forall g | g in next.groups && OwnsCategory(db, v, next.groups[g].category) ::
          g in db.groups && next.groups[g] == db.groups[g])
  }

  ghost predicate SameMembers(db: Db, next: Db, v: UserId) {
    forall m: Membership | OwnsGroup(db, v, m.group) :: m in next.members <==> m in db.members
  }

  ghost predicate SameEvents(db: Db, next: Db, v: UserId) {
    && (forall e | e in db.events && db.events[e].user == v :: e in next.events && next.events[e] == db.events[e])
    && (forall e | e in next.events && next.events[e].user == v :: e in db.events && next.events[e] == db.events[e])
  }

  ghost predicate SameLinks(db: Db, next: Db, v: UserId) {
    forall l: Link | l.user == v :: l in next.links <==> l in db.links
  }

  ghost predicate Same(db: Db, next: Db, v: UserId) {
    && (v in next.users <==> v in db.users) && (v in db.users ==> next.users[v] == db.users[v])
    && SameCategories(db, next, v) && SameTags(db, next, v) && SameGroups(db, next, v) && SameMembers(db, next, v)
    && SameEvents(db, next, v) && SameLinks(db, next, v)
  }

  lemma SameRowsAreOwn(db: Db, next: Db, v: UserId)
    requires Same(db, next, v)
    ensures var a, b := Own(next, v), Own(db, v);
            a.users == b.users && a.categories == b.categories && a.events == b.events && a.links == b.links
  {
    hide SameTags, SameGroups, SameMembers;
  }

  lemma SameKeysAreOwn(db: Db, next: Db, v: UserId)
    requires Same(db, next, v)
    ensures Own(next, v).tags == Own(db, v).tags
    ensures Own(next, v).groups == Own(db, v).groups
  {
    hide SameMembers, SameEvents, SameLinks, OwnsCategory;
  }

  lemma SameMembersAreOwn(db: Db, next: Db, v: UserId)
    requires Same(db, next, v)
    ensures Own(next, v).members == Own(db, v).members
  {
    assert forall g :: OwnsGroup(next, v, g) <==> OwnsGroup(db, v, g);
    hide SameCategories, SameTags, SameGroups, SameEvents, SameLinks, OwnsCategory, OwnsGroup;
  }

  lemma SameIsOwn(db: Db, next: Db, v: UserId)
    requires Same(db, next, v)
    ensures Own(next, v) == Own(db, v)
  {
    SameRowsAreOwn(db, next, v);
    SameKeysAreOwn(db, next, v);
    SameMembersAreOwn(db, next, v);
    hide Own, Same;
  }

  // While the categories of a user are the same, so are his untouched tags and groups
  lemma UntouchedKeep(db: Db, next: Db, v: UserId)
    requires Placed(db) && SameCategories(db, next, v) && (v in next.users <==> v in db.users)
    requires v in db.users ==> next.users[v] == db.users[v]
    requires next == db.(users := next.users, categories := next.categories)
    ensures Same(db, next, v)
  {
    hide Placed;
  }

  // ---- Tags ----

  lemma TagCreatedKeeps(env: Env, db: Db, next: Db, u: UserId, id: Id, req: TagRequest, v: UserId)
    requires TagCreated(env, db, next, u, id, req) && id !in db.tags && OwnsCategory(db, u, req.category) && v != u
    ensures Same(db, next, v)
  {
  }

  lemma TagUpdatedKeeps(env: Env, db: Db, next: Db, u: UserId, id: Id, req: TagRequest, v: UserId)
    requires TagUpdated(env, db, next, u, id, req) && Placed(db) && v != u
    requires OwnsCategory(db, u, req.category) && OwnsCategory(db, u, db.tags[id].key.category)
    ensures Same(db, next, v)
  {
  }

  // The tags that go lie in the category of the deleted tag, and so do their events' links
  lemma TagDeletedKeeps(db: Db, next: Db, u: UserId, id: Id, deleteEvents: bool, v: UserId)
    requires id in db.tags && TagDeleted(db, next, id, deleteEvents) && Placed(db) && v != u
    requires OwnsCategory(db, u, db.tags[id].key.category)
    ensures Same(db, next, v)
  {
    assert SameTags(db, next, v) && SameMembers(db, next, v) by { hide LinkAfter, CarriesGroup; }
    assert SameEvents(db, next, v) by { hide LinkAfter, SameTags, SameMembers; }
    assert SameLinks(db, next, v) by { hide CarriesGroup, SameTags, SameMembers, SameEvents; }
    hide LinkAfter, CarriesGroup, Placed, SameTags, SameMembers, SameEvents, SameLinks;
  }

  // ---- Categories and groups ----

  lemma CategoryMovedKeeps(db: Db, next: Db, u: UserId, c: Id, other: Id, v: UserId)
    requires CategoryMoved(db, next, c, other) && OwnsCategory(db, u, c) && OwnsCategory(db, u, other) && v != u
    ensures Same(db, next, v)
  {
  }

  lemma CategoryGoneKeeps(db: Db, next: Db, u: UserId, c: Id, deleteEvents: bool, v: UserId)
    requires CategoryGone(db, next, c, deleteEvents) && Placed(db) && OwnsCategory(db, u, c) && v != u
    ensures Same(db, next, v)
  {
  }

  lemma GroupWrittenKeeps(env: Env, db: Db, next: Db, u: UserId, g: Id, c: Id, req: GroupRequest, v: UserId)
    requires GroupWritten(env, db, next, u, g, c, req) && OwnsCategory(db, u, c) && v != u
    requires g in db.groups ==> db.groups[g].category == c
    ensures Same(db, next, v)
  {
  }

  // ---- Events ----

  lemma WrittenKeepsOthers(db: Db, u: UserId, e: Id, event: Event, more: map<Id, Tag>, linked: seq<Id>, dates: Id,
                           v: UserId)
    requires Placed(db) && v != u && event.user == u && DateTagsAdded(db.tags, more, dates)
    requires OwnsCategory(db, u, dates) && (e in db.events ==> db.events[e].user == u)
    ensures Same(db, db.(tags := more, events := db.events[e := event],
                     links := (set l | l in db.links && l.event != e) + LinksTo(e, u, linked)), v)
  {
    var next := db.(tags := more, events := db.events[e := event],
                    links := (set l | l in db.links && l.event != e) + LinksTo(e, u, linked));
    forall l: Link | l.user == v
      ensures l in next.links <==> l in db.links
    {
      assert l !in LinksTo(e, u, linked);
    }
    hide LinksTo, Placed;
  }

  lemma WriteEventKeepsOthers(env: Env, db: Db, u: UserId, e: Id, event: Event, clientTags: seq<Id>,
                              list: seq<DateTag>, ids: seq<Id>, dates: Id, v: UserId)
    requires TagNamesUnique(db.tags) && Placed(db) && v != u && event.user == u
    requires |ids| == |list| && NewTagIds(db, ids) && InDates(list, dates) && OwnsCategory(db, u, dates)
    requires e in db.events ==> db.events[e].user == u
    ensures Same(db, WriteEvent(env, db, u, e, event, clientTags, list, ids).0, v)
  {
    CreateAllAdds(env, db.tags, u, list, ids, dates);
    hide CreateAll, TagNamesUnique, NewTagIds, InDates, Placed, DateTagsAdded, OwnsCategory, Same, Settles, LinksTo;
    var (more, made) := CreateAll(env, db.tags, u, list, ids);
    WrittenKeepsOthers(db, u, e, event, more, clientTags + made, dates, v);
    SameAsItWas(db, v);
  }

  lemma SameAsItWas(db: Db, v: UserId)
    ensures Same(db, db, v)
  {
  }

  // ---- Migrations ----

  lemma MigratedKeepsKeys(env: Env, db: Db, next: Db, u: UserId, on: bool, check: Option<string>, data: Dataset,
                          v: UserId)
    requires NamesAll(db, u, data) && Migrated(env, db, next, u, on, check, data) && v != u
    ensures SameTags(db, next, v) && SameGroups(db, next, v)
  {
    hide CategoriesMigrated, EventsMigrated, SaysName, KeepsIndex;
  }

  lemma MigratedKeepsRows(env: Env, db: Db, next: Db, u: UserId, on: bool, check: Option<string>, data: Dataset,
                          v: UserId)
    requires NamesAll(db, u, data) && Migrated(env, db, next, u, on, check, data) && v != u
    ensures SameCategories(db, next, v) && SameEvents(db, next, v)
  {
    hide TagsMigrated, GroupsMigrated, SaysName, SaysText;
  }

  lemma MigratedKeeps(env: Env, db: Db, next: Db, u: UserId, on: bool, check: Option<string>, data: Dataset, v: UserId)
    requires NamesAll(db, u, data) && Migrated(env, db, next, u, on, check, data) && v != u
    ensures Same(db, next, v)
  {
    MigratedKeepsKeys(env, db, next, u, on, check, data, v);
    MigratedKeepsRows(env, db, next, u, on, check, data, v);
    hide NamesAll, CategoriesMigrated, EventsMigrated, TagsMigrated, GroupsMigrated, SameTags, SameGroups,
      SameCategories, SameEvents;
  }

  // ---- Steps and runs ----

  lemma TagStepKeeps(env: Env, db: Db, step: Step, v: UserId)
    requires Sound(env.cipher) && Aggregate(db) && Enabled(db, step) && v != step.u
    requires step.CreateTag? || step.UpdateTag? || step.DeleteTag?
    ensures Same(db, Apply(env, db, step), v)
  {
    hide Aggregate, Sound, TagCreated, TagUpdated, TagDeleted, TagNamesUnique, Catalog.CreateTag, Catalog.UpdateTag,
      Catalog.DeleteTag, Same, Placed, E2ee;
    AggregateIsPlaced(db);
    SameAsItWas(db, v);
    match step
    case CreateTag(u, id, req) =>
      CreateTagDoes(env, db, u, id, req);
      if Catalog.CreateTag(env, db, u, id, req).1.Done? {
        TagCreatedKeeps(env, db, Apply(env, db, step), u, id, req, v);
      }
    case UpdateTag(u, id, req) =>
      UpdateTagDoes(env, db, u, id, req);
      if Catalog.UpdateTag(env, db, u, id, req).1.Done? {
        TagUpdatedKeeps(env, db, Apply(env, db, step), u, id, req, v);
      }
    case DeleteTag(u, id, del) =>
      DeleteTagDoes(db, u, id, del);
      if Catalog.DeleteTag(db, u, id, del).1.Done? {
        TagDeletedKeeps(db, Apply(env, db, step), u, id, del, v);
      }
  }

  lemma DeleteCategoryKeepsOthers(db: Db, u: UserId, c: Id, moveTags: bool, deleteEvents: bool, v: UserId)
    requires Aggregate(db) && u in db.users && v != u
    ensures Same(db, Catalog.DeleteCategory(db, u, c, moveTags, deleteEvents).0, v)
  {
    hide Aggregate, CategoryMoved, CategoryGone, TagNamesUnique, KeysUnique, Catalog.DeleteCategory, Placed, Same;
    AggregateIsPlaced(db);
    SameAsItWas(db, v);
    DeleteCategoryDoes(db, u, c, moveTags, deleteEvents);
    var (next, outcome) := Catalog.DeleteCategory(db, u, c, moveTags, deleteEvents);
    if outcome.Done? {
      if moveTags {
        var other :| IsKind(db, u, Other, other) && CategoryMoved(db, next, c, other);
        CategoryMovedKeeps(db, next, u, c, other, v);
      } else {
        CategoryGoneKeeps(db, next, u, c, deleteEvents, v);
      }
    }
  }

  lemma CategoryPutKeeps(db: Db, next: Db, u: UserId, c: Id, v: UserId)
    requires Placed(db) && v != u && next == db.(categories := next.categories)
    requires next.categories.Keys == db.categories.Keys + {c} && next.categories[c].user == u
    requires c in db.categories ==> db.categories[c].user == u
    requires forall d | d in db.categories && d != c :: next.categories[d] == db.categories[d]
    ensures Same(db, next, v)
  {
    UntouchedKeep(db, next, v);
  }

  lemma CategoryStepKeeps(env: Env, db: Db, step: Step, v: UserId)
    requires Sound(env.cipher) && Aggregate(db) && Enabled(db, step) && v != step.u
    requires step.CreateCategory? || step.UpdateCategory? || step.DeleteCategory?
    ensures Same(db, Apply(env, db, step), v)
  {
    hide Aggregate, Sound, Catalog.CreateCategory, Catalog.UpdateCategory, Catalog.DeleteCategory, Placed, E2ee,
      SaysName, Same, IsBlob;
    AggregateIsPlaced(db);
    SameAsItWas(db, v);
    var next := Apply(env, db, step);
    match step
    case CreateCategory(u, id, req) =>
      CreateCategoryDoes(env, db, u, id, req);
      if next != db {
        CategoryPutKeeps(db, next, u, id, v);
      }
    case UpdateCategory(u, id, name) =>
      UpdateCategoryDoes(env, db, u, id, name);
      if next != db {
        CategoryPutKeeps(db, next, u, id, v);
      }
    case DeleteCategory(u, id, move, del) => DeleteCategoryKeepsOthers(db, u, id, move, del, v);
  }

  lemma GroupStepKeeps(env: Env, db: Db, step: Step, v: UserId)
    requires Sound(env.cipher) && Aggregate(db) && Enabled(db, step) && v != step.u
    requires step.CreateGroup? || step.UpdateGroup? || step.DeleteGroup?
    ensures Same(db, Apply(env, db, step), v)
  {
    hide Aggregate, Sound, KeysUnique, GroupWritten, Catalog.CreateGroup, Catalog.UpdateGroup, E2ee;
    match step
    case CreateGroup(u, id, c, req) =>
      CreateGroupDoes(env, db, u, id, c, req);
      if Catalog.CreateGroup(env, db, u, id, c, req).1.Done? {
        GroupWrittenKeeps(env, db, Apply(env, db, step), u, id, c, req, v);
      }
    case UpdateGroup(u, id, req) =>
      UpdateGroupDoes(env, db, u, id, req);
      if Catalog.UpdateGroup(env, db, u, id, req).1.Done? {
        GroupWrittenKeeps(env, db, Apply(env, db, step), u, id, db.groups[id].category, req, v);
      }
    case DeleteGroup(u, id) =>
  }

  lemma EventWriteKeeps(env: Env, db: Db, u: UserId, e: Id, event: Event, clientTags: seq<Id>, names: seq<string>,
                        ids: seq<Id>, v: UserId)
    requires Aggregate(db) && EventRows(db, u, names, ids) && event.user == u && v != u
    requires e in db.events ==> db.events[e].user == u
    ensures var list := DateTagsFor(env, db, u, names);
            Same(db, WriteEvent(env, db, u, e, event, clientTags, list, ids[..|list|]).0, v)
  {
    LookedUpAreOwned(env, db, u, names);
    var list := DateTagsFor(env, db, u, names);
    assert |list| <= |ids|;
    hide Aggregate, TagNamesUnique, TagsOk, HasKind, NewTagIds, DateTagsFor, WriteEvent, Same, Placed, OwnsTag, InDates;
    AggregateIsPlaced(db);
    AggregateTags(db);
    PrefixOfNewIds(db, ids, |list|);
    WriteEventKeepsOthers(env, db, u, e, event, clientTags, list, ids[..|list|], CategoryOfKind(db, u, Date), v);
  }

  lemma CreateEventStepKeeps(env: Env, db: Db, u: UserId, e: Id, req: EventRequest, names: seq<string>, ids: seq<Id>,
                             v: UserId)
    requires Aggregate(db) && EventRows(db, u, names, ids) && e !in db.events && v != u
    ensures Same(db, CatalogEvents.CreateEvent(env, db, u, e, req, names, ids).0, v)
  {
    SameAsItWas(db, v);
    hide Aggregate, EventAccepted, WriteEvent, Same, EventCreated, StoredDescription, DateTagsFor, HasKind, NewTagIds;
    EventWriteKeeps(env, db, u, e,
        Event(u, StoredDescription(env, db, u, req.description), DateTags.Normalised(req.period), req.clientId),
        req.tags, names, ids, v);
  }

  lemma UpdateEventStepKeeps(env: Env, db: Db, u: UserId, e: Id, req: EventRequest, names: seq<string>, ids: seq<Id>,
                             v: UserId)
    requires Aggregate(db) && EventRows(db, u, names, ids) && v != u
    ensures Same(db, CatalogEvents.UpdateEvent(env, db, u, e, req, names, ids).0, v)
  {
    SameAsItWas(db, v);
    hide Aggregate, EventAccepted, WriteEvent, Same, StoredDescription, DateTagsFor, HasKind, NewTagIds;
    if e in db.events && db.events[e].user == u {
      EventWriteKeeps(env, db, u, e,
          db.events[e].(description := StoredDescription(env, db, u, req.description),
          period := DateTags.Normalised(req.period)),
          req.tags, names, ids, v);
    }
  }

  lemma EventStepKeeps(env: Env, db: Db, step: Step, v: UserId)
    requires Aggregate(db) && Enabled(db, step) && v != step.u
    requires step.CreateEvent? || step.UpdateEvent? || step.DeleteEvent?
    ensures Same(db, Apply(env, db, step), v)
  {
    hide Aggregate, Same, Placed, CatalogEvents.CreateEvent, CatalogEvents.UpdateEvent, CatalogEvents.DeleteEvent,
      EventRows;
    AggregateIsPlaced(db);
    match step
    case CreateEvent(u, id, req, names, ids) => CreateEventStepKeeps(env, db, u, id, req, names, ids, v);
    case UpdateEvent(u, id, req, names, ids) => UpdateEventStepKeeps(env, db, u, id, req, names, ids, v);
    case DeleteEvent(u, id) => DeleteEventKeeps(db, u, id, v);
  }

  lemma DeleteEventKeeps(db: Db, u: UserId, e: Id, v: UserId)
    requires Placed(db) && v != u
    ensures Same(db, CatalogEvents.DeleteEvent(db, u, e).0, v)
  {
  }

  lemma MigrationStepKeeps(env: Env, db: Db, step: Step, v: UserId)
    requires Sound(env.cipher) && Enabled(db, step) && v != step.u && (step.Enable? || step.Disable?)
    ensures Same(db, Apply(env, db, step), v)
  {
    hide Sound, Migrated, NamesAll, Migration.Enable, Migration.Disable, Same, Encrypted, NotBlank, IsKeyCheck,
      TagNamesUnique, KeysUnique;
    SameAsItWas(db, v);
    match step
    case Enable(u, check, data) =>
      EnableDoes(env, db, u, check, data);
      if Migration.Enable(db, u, check, data).1.Done? {
        MigratedKeeps(env, db, Apply(env, db, step), u, true, Some(check), data, v);
      }
    case Disable(u, data) =>
      DisableDoes(env, db, u, data);
      if Migration.Disable(env, db, u, data).1.Done? {
        MigratedKeeps(env, db, Apply(env, db, step), u, false, None, data, v);
      }
  }

  lemma RegisteredKeeps(env: Env, db: Db, u: UserId, dates: Id, persons: Id, others: Id, v: UserId)
    requires Sound(env.cipher) && Placed(db) && NewIds(db, dates, persons, others) && v != u
    ensures Same(db, Catalog.Register(env, db, u, dates, persons, others).0, v)
  {
    hide Catalog.Register, Sound, SaysText, Placed, Same;
    var next := Catalog.Register(env, db, u, dates, persons, others).0;
    RegisterDoes(env, db, u, dates, persons, others);
    assert SameCategories(db, next, v);
    hide OwnsCategory, Afresh, SameCategories;
    UntouchedKeep(db, next, v);
  }

  lemma OthersLeftCategories(env: Env, db: Db, next: Db, u: UserId, dates: Id, persons: Id, others: Id, v: UserId)
    requires OthersLeft(db, next, u, {dates, persons, others}) && v != u
    requires Afresh(env, next, u, dates, persons, others) && NewIds(db, dates, persons, others)
    ensures SameCategories(db, next, v)
  {
    hide SaysText, OwnsTag, OwnsGroup;
    assert forall c | c in {dates, persons, others} :: !OwnsCategory(next, v, c) && !OwnsCategory(db, v, c);
    hide Afresh, Seed;
  }

  lemma OthersLeftKeys(db: Db, next: Db, u: UserId, seeds: set<Id>, v: UserId)
    requires Placed(db) && OthersLeft(db, next, u, seeds) && SameCategories(db, next, v) && v != u
    ensures SameTags(db, next, v)
    ensures SameGroups(db, next, v)
  {
  }

  lemma OthersLeftKeep(db: Db, next: Db, u: UserId, seeds: set<Id>, v: UserId)
    requires Placed(db) && OthersLeft(db, next, u, seeds) && SameCategories(db, next, v) && v != u
    ensures Same(db, next, v)
  {
    OthersLeftKeys(db, next, u, seeds, v);
    hide SameCategories, SameTags, SameGroups, Placed, OwnsTag;
  }

  lemma PurgedKeeps(env: Env, db: Db, u: UserId, dates: Id, persons: Id, others: Id, v: UserId)
    requires Sound(env.cipher) && Aggregate(db) && NewIds(db, dates, persons, others) && v != u
    ensures Same(db, Catalog.Purge(env, db, u, dates, persons, others).0, v)
  {
    hide Catalog.Purge, Sound, Aggregate, OthersLeft, Afresh, Same, SameCategories, Placed, NewIds,
      E2ee;
    PurgeDoes(env, db, u, dates, persons, others);
    AggregateIsPlaced(db);
    SameAsItWas(db, v);
    if Catalog.Purge(env, db, u, dates, persons, others).1.Done? {
      var next := Catalog.Purge(env, db, u, dates, persons, others).0;
      OthersLeftCategories(env, db, next, u, dates, persons, others, v);
      OthersLeftKeep(db, next, u, {dates, persons, others}, v);
    }
  }

  // Whatever a user does, nobody else's account or rows change, none goes and none is added
  lemma StepIsOwn(env: Env, db: Db, step: Step, v: UserId)
    requires Sound(env.cipher) && Aggregate(db) && Enabled(db, step) && v != step.u
    ensures Own(Apply(env, db, step), v) == Own(db, v)
  {
    AggregateIsPlaced(db);
    hide Aggregate, Sound, Placed, Same, Own, Apply;
    if step.CreateTag? || step.UpdateTag? || step.DeleteTag? {
      TagStepKeeps(env, db, step, v);
    } else if step.CreateCategory? || step.UpdateCategory? || step.DeleteCategory? {
      CategoryStepKeeps(env, db, step, v);
    } else if step.CreateGroup? || step.UpdateGroup? || step.DeleteGroup? {
      GroupStepKeeps(env, db, step, v);
    } else if step.CreateEvent? || step.UpdateEvent? || step.DeleteEvent? {
      EventStepKeeps(env, db, step, v);
    } else if step.Enable? || step.Disable? {
      MigrationStepKeeps(env, db, step, v);
    } else {
      UserStepKeeps(env, db, step, v);
    }
    SameIsOwn(db, Apply(env, db, step), v);
  }

  lemma UserStepKeeps(env: Env, db: Db, step: Step, v: UserId)
    requires Sound(env.cipher) && Aggregate(db) && Enabled(db, step) && v != step.u
    requires step.Register? || step.Purge?
    ensures Same(db, Apply(env, db, step), v)
  {
    hide Aggregate, Sound, Placed, Same, Catalog.Register, Catalog.Purge, NewIds;
    AggregateIsPlaced(db);
    match step
    case Register(u, d, p, o) => RegisteredKeeps(env, db, u, d, p, o, v);
    case Purge(u, d, p, o) => PurgedKeeps(env, db, u, d, p, o, v);
  }

  // The flags of other users are not his own
  lemma UsersAreNotOwn(db: Db, users: map<UserId, User>, v: UserId)
    requires (v in users <==> v in db.users) && (v in db.users ==> users[v] == db.users[v])
    ensures Own(db.(users := users), v) == Own(db, v)
  {
    assert Same(db, db.(users := users), v);
    SameIsOwn(db, db.(users := users), v);
  }

  lemma ServedAsSeen(env: Env, db: Db, request: Request)
    requires Enabled(db, request.step) && (Writes(request.step) || request.step.DeleteTag?)
    ensures var saw := AsSeen(db, request.step.u, request.seen);
            && Enabled(saw, request.step)
            && Serve(env, db, request) == Apply(env, saw, request.step).(users := db.users)
  {
    if Writes(request.step) {
      SeenIsEnabled(db, request.step, request.seen);
      hide Enabled, Apply, AsSeen;
    } else {
      hide Catalog.DeleteTag;
    }
  }

  lemma SeenByOthers(db: Db, u: UserId, seen: bool)
    requires Aggregate(db) && u in db.users
    ensures Aggregate(AsSeen(db, u, seen)) && AsSeen(db, u, seen).users.Keys == db.users.Keys
    ensures forall v | v in db.users && v != u :: AsSeen(db, u, seen).users[v] == db.users[v]
    ensures AsSeen(db, u, seen) == db.(users := AsSeen(db, u, seen).users)
  {
    hide Aggregate;
    SameUsersKeep(db, AsSeen(db, u, seen).users);
  }

  // Nor does it when it goes by a flag that has changed since
  lemma RequestIsOwn(env: Env, db: Db, request: Request, v: UserId)
    requires Sound(env.cipher) && Aggregate(db) && Enabled(db, request.step) && v != request.step.u
    ensures Own(Serve(env, db, request), v) == Own(db, v)
  {
    var step := request.step;
    assert !step.Register? ==> step.u in db.users;
    hide Aggregate, Sound, Own, Enabled, Apply, AsSeen;
    if Writes(step) || step.DeleteTag? {
      ServedAsSeen(env, db, request);
      hide Serve;
      var saw := AsSeen(db, step.u, request.seen);
      SeenByOthers(db, step.u, request.seen);
      SameUsersAfter(env, saw, step);
      hide Writes;
      StepIsOwn(env, saw, step, v);
      assert v in saw.users.Keys <==> v in db.users.Keys;
      UsersAreNotOwn(db, saw.users, v);
      UsersAreNotOwn(Apply(env, saw, step), db.users, v);
    } else {
      StepIsOwn(env, db, step, v);
    }
  }

  lemma SameUsersAfter(env: Env, db: Db, step: Step)
    requires Enabled(db, step) && (Writes(step) || step.DeleteTag?)
    ensures Apply(env, db, step).users == db.users
  {
    if Writes(step) {
      UsersStay(env, db, step);
    }
  }

  // Over a whole run of everyone else's requests, with whatever flags they saw, a user's
  // account and rows stay as they are
  lemma {:induction false} RunsAreOwn(env: Env, db: Db, requests: seq<Request>, v: UserId)
    requires Sound(env.cipher) && Aggregate(db) && Admissible(env, db, requests)
    requires forall r | r in requests :: r.step.u != v
    ensures Own(ServeAll(env, db, requests), v) == Own(db, v)
    decreases |requests|
  {
    hide Aggregate, Sound, Own, Enabled, Serve;
    if requests != [] {
      assert requests[0] in requests;
      ServeKeepsAggregate(env, db, requests[0]);
      RequestIsOwn(env, db, requests[0], v);
      RunsAreOwn(env, Serve(env, db, requests[0]), requests[1..], v);
    }
  }
}
