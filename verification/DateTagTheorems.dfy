/** The date tags of users without E2EE, through whatever all users do. */
module DateTagTheorems {
  import opened Collections
  import opened Options
  import opened Encryption
  import opened Catalog
  import opened CatalogInvariant
  import opened CatalogEvents
  import opened Migration
  import opened MigrationTheorems
  import opened CatalogRuns
  import DateTags

  ghost predicate IsDateTag(db: Db, u: UserId, t: Id) {
    t in db.tags && IsKind(db, u, Date, db.tags[t].key.category)
  }

  lemma HeldFrom(db: Db, next: Db, u: UserId)
    requires !E2ee(db, u) && !E2ee(next, u)
    requires forall c | IsKind(db, u, Date, c) :: IsKind(next, u, Date, c)
    requires forall t | IsDateTag(db, u, t) :: t in next.tags && next.tags[t] == db.tags[t]
    ensures DatesHeld(db, next, u)
  {
    forall t, c | t in db.tags && IsKind(db, u, Date, c) && db.tags[t].key.category == c
      ensures t in next.tags && next.tags[t] == db.tags[t]
    {
      assert IsDateTag(db, u, t);
    }
  }

  lemma HeldIsTransitive(a: Db, b: Db, c: Db, u: UserId)
    requires DatesHeld(a, b, u) && DatesHeld(b, c, u)
    ensures DatesHeld(a, c, u)
  {
    hide IsKind, E2ee;
  }

  lemma HeldBySame(db: Db, next: Db, u: UserId)
    requires !E2ee(db, u) && next.users == db.users && next.categories == db.categories && next.tags == db.tags
    ensures DatesHeld(db, next, u)
  {
  }

  lemma DateCategoryIsLocked(db: Db, u: UserId, c: Id)
    requires CategoriesOk(db.users, db.categories) && IsKind(db, u, Date, c)
    ensures db.categories[c].locked
  {
    assert CategoryOk(db.users, db.categories[c]);
  }

  // ---- Tags ----

  lemma DroppedTagsHold(db: Db, u: UserId, dead: set<Id>)
    requires !E2ee(db, u) && TagsOk(db.categories, db.tags) && forall t | t in dead :: !IsDateTag(db, u, t)
    ensures DatesHeld(db, DeleteTags(db, dead), u)
  {
    var next := DeleteTags(db, dead);
    forall t | IsDateTag(db, u, t)
      ensures t in next.tags && next.tags[t] == db.tags[t]
    {
      if t in SynonymsOf(db.tags, dead) {
        assert ParentOk(db.tags, t);
        assert IsDateTag(db, u, db.tags[t].parent.value);
      }
    }
    HeldFrom(db, next, u);
  }

  // No one but their owner may touch a tag, and he may not touch a date tag
  lemma ServerTagsAreRefused(db: Db, u: UserId, v: UserId, t: Id)
    requires !E2ee(db, u) && OwnsTag(db.categories, db.tags, v, t) && !IsServerTag(db, v, t)
    ensures !IsDateTag(db, u, t)
  {
  }

  lemma RetagHolds(db: Db, u: UserId, id: Id, tag: Tag, members: set<Membership>)
    requires !E2ee(db, u) && TagsOk(db.categories, db.tags) && id in db.tags && !IsDateTag(db, u, id)
    ensures DatesHeld(db, db.(tags := Retag(db.tags, id, tag), members := members), u)
  {
    var next := db.(tags := Retag(db.tags, id, tag), members := members);
    forall t | IsDateTag(db, u, t)
      ensures t in next.tags && next.tags[t] == db.tags[t]
    {
      assert ParentOk(db.tags, t);
    }
    HeldFrom(db, next, u);
  }

  lemma DeleteTagHolds(db: Db, u: UserId, v: UserId, id: Id, deleteEvents: bool)
    requires Aggregate(db) && !E2ee(db, u)
    ensures DatesHeld(db, Catalog.DeleteTag(db, v, id, deleteEvents).0, u)
  {
    HeldBySame(db, db, u);
    if OwnsTag(db.categories, db.tags, v, id) && !IsServerTag(db, v, id) {
      ServerTagsAreRefused(db, u, v, id);
      var relinked := if db.tags[id].parent.Some? then db.(links := Repoint(db.links, id, db.tags[id].parent.value))
          else db;
      var doomed := EventsOf(db.events, v) * EventsTagged(db.links, SynonymGroup(db.tags, id));
      var eventless := DeleteEvents(db, doomed);
      OnlyEvents(db, doomed);
      hide CategoriesOk, DefaultsOk, TagsOk, GroupsOk, MembersOk, EventsOk, LinksOk, KeysUnique, TagNamesUnique,
        DeleteTags, DeleteEvents, DatesHeld, Repoint, IsDateTag, SynonymGroup, EventsTagged;
      HeldByRelinked(db, relinked, u, id);
      HeldByRelinked(db, eventless, u, id);
    }
  }

  // Events and links have no say in it
  lemma HeldByRelinked(db: Db, relinked: Db, u: UserId, id: Id)
    requires !E2ee(db, u) && TagsOk(db.categories, db.tags) && !IsDateTag(db, u, id)
    requires relinked.users == db.users && relinked.categories == db.categories && relinked.tags == db.tags
    ensures DatesHeld(db, DeleteTags(relinked, {id}), u)
  {
    HeldBySame(db, relinked, u);
    DroppedTagsHold(relinked, u, {id});
    hide DeleteTags, TagsOk, DatesHeld;
    HeldIsTransitive(db, relinked, DeleteTags(relinked, {id}), u);
  }

  lemma UpdateTagHolds(env: Env, db: Db, u: UserId, v: UserId, id: Id, req: TagRequest)
    requires TagsOk(db.categories, db.tags) && !E2ee(db, u)
    ensures DatesHeld(db, Catalog.UpdateTag(env, db, v, id, req).0, u)
  {
    hide TagsOk, ParentAccepted, IndexAccepted, NameToStore, StoredTag, TagNamesUnique, Retag, Regroup, DatesHeld,
      HasSynonyms, E2ee, IsServerTag, OwnsTag, IsDateTag;
    HeldBySame(db, db, u);
    if Catalog.UpdateTag(env, db, v, id, req).1.Done? {
      ServerTagsAreRefused(db, u, v, id);
      OwnedIsThere(db, v, id);
      var tag := StoredTag(env, db, v, req);
      RetagHolds(db, u, id, tag, Regroup(db.groups, db.members, id, tag));
    }
  }

  lemma OwnedIsThere(db: Db, v: UserId, id: Id)
    requires OwnsTag(db.categories, db.tags, v, id)
    ensures id in db.tags
  {
  }

  lemma CreateTagHolds(env: Env, db: Db, u: UserId, v: UserId, id: Id, req: TagRequest)
    requires id !in db.tags && !E2ee(db, u)
    ensures DatesHeld(db, Catalog.CreateTag(env, db, v, id, req).0, u)
  {
    hide TagAccepted, TagNamesUnique, StoredTag;
  }

  // ---- Categories ----

  lemma DroppedCategoriesHold(db: Db, u: UserId, dead: set<Id>)
    requires !E2ee(db, u) && TagsOk(db.categories, db.tags) && forall c | c in dead :: !IsKind(db, u, Date, c)
    ensures DatesHeld(db, DeleteCategories(db, dead), u)
  {
    var tagless := DeleteTags(db, TagsIn(db.tags, dead));
    DroppedTagsHold(db, u, TagsIn(db.tags, dead));
    var next := DeleteCategories(db, dead);
    assert next.users == tagless.users && next.tags == tagless.tags && next.categories == tagless.categories - dead;
    assert tagless.categories == db.categories;
    hide DeleteTags, DeleteCategories, DeleteGroups, TagsOk, TagsIn;
  }

  lemma MoveHolds(db: Db, u: UserId, from: Id, to: Id)
    requires !E2ee(db, u) && !IsKind(db, u, Date, from)
    ensures DatesHeld(db, db.(tags := MoveTags(db.tags, from, to), groups := MoveGroups(db.groups, from, to)), u)
  {
  }

  lemma MovedTagsOk(categories: map<Id, Category>, tags: map<Id, Tag>, from: Id, to: Id)
    requires TagsOk(categories, tags) && to in categories
    ensures TagsOk(categories, MoveTags(tags, from, to))
  {
    forall t | t in tags
      ensures ParentOk(MoveTags(tags, from, to), t)
    {
      assert ParentOk(tags, t);
    }
  }

  lemma MovedAwayHolds(db: Db, u: UserId, c: Id, other: Id)
    requires TagsOk(db.categories, db.tags) && !E2ee(db, u) && !IsKind(db, u, Date, c) && other in db.categories
    ensures var moved := db.(tags := MoveTags(db.tags, c, other), groups := MoveGroups(db.groups, c, other));
            DatesHeld(db, DeleteCategories(moved, {c}), u)
  {
    var moved := db.(tags := MoveTags(db.tags, c, other), groups := MoveGroups(db.groups, c, other));
    hide DatesHeld, DeleteCategories, MoveTags, MoveGroups, TagsOk;
    MovedTagsOk(db.categories, db.tags, c, other);
    MoveHolds(db, u, c, other);
    DroppedCategoriesHold(moved, u, {c});
    HeldIsTransitive(db, moved, DeleteCategories(moved, {c}), u);
  }

  lemma DeletedWithEventsHolds(db: Db, u: UserId, dead: set<Id>, doomed: set<Id>)
    requires TagsOk(db.categories, db.tags) && !E2ee(db, u) && forall c | c in dead :: !IsKind(db, u, Date, c)
    ensures DatesHeld(db, DeleteCategories(DeleteEvents(db, doomed), dead), u)
  {
    var rest := DeleteEvents(db, doomed);
    OnlyEvents(db, doomed);
    hide DatesHeld, DeleteCategories, DeleteEvents, TagsOk;
    HeldBySame(db, rest, u);
    DroppedCategoriesHold(rest, u, dead);
    HeldIsTransitive(db, rest, DeleteCategories(rest, dead), u);
  }

  lemma DeleteCategoryHolds(db: Db, u: UserId, v: UserId, c: Id, moveTags: bool, deleteEvents: bool)
    requires CategoriesOk(db.users, db.categories) && TagsOk(db.categories, db.tags) && !E2ee(db, u)
    ensures DatesHeld(db, Catalog.DeleteCategory(db, v, c, moveTags, deleteEvents).0, u)
  {
    HeldBySame(db, db, u);
    hide DatesHeld, DeleteCategories, DeleteEvents, MoveTags, MoveGroups, TagNamesUnique, KeysUnique, CategoriesOk,
      TagsOk, EventsTagged;
    if Catalog.DeleteCategory(db, v, c, moveTags, deleteEvents).1.Done? {
      if IsKind(db, u, Date, c) {
        DateCategoryIsLocked(db, u, c);
      }
      if moveTags {
        MovedAwayHolds(db, u, c, CategoryOfKind(db, v, Other));
      } else if deleteEvents {
        DeletedWithEventsHolds(db, u, {c}, EventsOf(db.events, v) * EventsTagged(db.links, TagsIn(db.tags, {c})));
      } else {
        DroppedCategoriesHold(db, u, {c});
      }
    }
  }

  // ---- Users ----

  lemma RegisterHolds(env: Env, db: Db, u: UserId, v: UserId, dates: Id, persons: Id, others: Id)
    requires !E2ee(db, u) && NewIds(db, dates, persons, others)
    ensures DatesHeld(db, Catalog.Register(env, db, v, dates, persons, others).0, u)
  {
    var next := Catalog.Register(env, db, v, dates, persons, others).0;
    assert forall c | c in db.categories :: c in next.categories && next.categories[c] == db.categories[c];
    hide Seeds;
  }

  lemma PurgeHolds(env: Env, db: Db, u: UserId, v: UserId, dates: Id, persons: Id, others: Id)
    requires TagsOk(db.categories, db.tags) && !E2ee(db, u) && NewIds(db, dates, persons, others)
    ensures DatesHeld(db, Catalog.Purge(env, db, v, dates, persons, others).0, u)
  {
    HeldBySame(db, db, u);
    if E2ee(db, v) {
      var doomed, dead := EventsOf(db.events, v), CategoriesOf(db.categories, v);
      var bare := DeleteCategories(DeleteEvents(db, doomed), dead);
      OnlyEvents(db, doomed);
      NothingLeftIn(DeleteEvents(db, doomed), dead);
      assert NewIds(bare, dates, persons, others);
      hide DatesHeld, DeleteCategories, DeleteEvents, TagsOk, NewIds, Catalog.Register;
      DeletedWithEventsHolds(db, u, dead, doomed);
      HeldOn(db, bare, u);
      RegisterHolds(env, bare, u, v, dates, persons, others);
      HeldIsTransitive(db, bare, Catalog.Register(env, bare, v, dates, persons, others).0, u);
    }
  }

  lemma HeldOn(db: Db, next: Db, u: UserId)
    requires DatesHeld(db, next, u)
    ensures !E2ee(next, u)
  {
  }

  // A migration rewrites the rows of its own user only
  lemma SwapHolds(db: Db, u: UserId, v: UserId, enable: bool, keyCheck: Option<string>, data: Dataset)
    requires Aggregate(db) && !E2ee(db, u) && (v != u || !enable)
    ensures DatesHeld(db, Swap(db, v, enable, keyCheck, data).0, u)
  {
    HeldBySame(db, db, u);
    var next := Swap(db, v, enable, keyCheck, data).0;
    if Swap(db, v, enable, keyCheck, data).1.Done? {
      RewritesRename(db, data);
      assert next.categories == RewriteCategories(db.categories, data.categories)
          && next.tags == RewriteTags(db.tags, data.tags);
      forall t | IsDateTag(db, u, t)
        ensures t in next.tags && next.tags[t] == db.tags[t]
      {
        CoveredRow(data.tags, TagsOf(db, v), t);
      }
      hide Aggregate, RewriteCategories, RewriteTags, Rewrite, CoversAll, TagNamesUnique, KeysUnique;
      HeldFrom(db, next, u);
    }
  }

  // ---- Events ----

  lemma WriteEventHolds(env: Env, db: Db, u: UserId, v: UserId, e: Id, event: Event, clientTags: seq<Id>,
                        list: seq<DateTag>, ids: seq<Id>, dates: Id)
    requires TagNamesUnique(db.tags) && |ids| == |list| && InDates(list, dates) && NewTagIds(db, ids) && !E2ee(db, u)
    ensures DatesHeld(db, WriteEvent(env, db, v, e, event, clientTags, list, ids).0, u)
  {
    HeldBySame(db, db, u);
    CreateAllAdds(env, db.tags, v, list, ids, dates);
    hide CreateAll, TagNamesUnique, NewTagIds, InDates, LinksTo;
  }

  lemma EventWriteHolds(env: Env, db: Db, u: UserId, v: UserId, e: Id, event: Event, clientTags: seq<Id>,
                        names: seq<string>, ids: seq<Id>)
    requires TagNamesUnique(db.tags) && EventRows(db, v, names, ids) && !E2ee(db, u)
    ensures var list := DateTagsFor(env, db, v, names); DatesHeld(db,
            WriteEvent(env, db, v, e, event, clientTags, list, ids[..|list|]).0, u)
  {
    LookedUpAreOwned(env, db, v, names);
    var list := DateTagsFor(env, db, v, names);
    assert NewTagIds(db, ids[..|list|]);
    hide TagNamesUnique, HasKind, NewTagIds, DateTagsFor, WriteEvent, DatesHeld;
    WriteEventHolds(env, db, u, v, e, event, clientTags, list, ids[..|list|], CategoryOfKind(db, v, Date));
  }

  lemma CreateEventHolds(env: Env, db: Db, u: UserId, v: UserId, e: Id, req: EventRequest, names: seq<string>,
                         ids: seq<Id>)
    requires TagNamesUnique(db.tags) && EventRows(db, v, names, ids) && !E2ee(db, u)
    ensures DatesHeld(db, CatalogEvents.CreateEvent(env, db, v, e, req, names, ids).0, u)
  {
    HeldBySame(db, db, u);
    hide TagNamesUnique, EventAccepted, WriteEvent, DatesHeld, EventCreated, StoredDescription, DateTagsFor, HasKind,
      NewTagIds;
    EventWriteHolds(env, db, u, v, e,
        Event(v, StoredDescription(env, db, v, req.description), DateTags.Normalised(req.period), req.clientId),
                    req.tags, names, ids);
  }

  lemma UpdateEventHolds(env: Env, db: Db, u: UserId, v: UserId, e: Id, req: EventRequest, names: seq<string>,
                         ids: seq<Id>)
    requires TagNamesUnique(db.tags) && EventRows(db, v, names, ids) && !E2ee(db, u)
    ensures DatesHeld(db, CatalogEvents.UpdateEvent(env, db, v, e, req, names, ids).0, u)
  {
    HeldBySame(db, db, u);
    hide TagNamesUnique, EventAccepted, WriteEvent, DatesHeld, StoredDescription, DateTagsFor, HasKind, NewTagIds;
    if e in db.events {
      EventWriteHolds(env, db, u, v, e,
          Event(v, StoredDescription(env, db, v, req.description), DateTags.Normalised(req.period),
          db.events[e].clientId),
                      req.tags, names, ids);
    }
  }

  // ---- Steps and runs ----

  lemma GroupStepHolds(env: Env, db: Db, u: UserId, step: Step)
    requires Enabled(db, step) && !E2ee(db, u)
    requires step.CreateGroup? || step.UpdateGroup? || step.DeleteGroup? || step.DeleteEvent?
    ensures DatesHeld(db, Apply(env, db, step), u)
  {
    hide Enabled, GroupAccepted, KeysUnique, StoredGroup, DatesHeld;
    HeldBySame(db, Apply(env, db, step), u);
  }

  lemma CategoryStepHolds(env: Env, db: Db, u: UserId, step: Step)
    requires Enabled(db, step) && !E2ee(db, u) && (step.CreateCategory? || step.UpdateCategory?)
    ensures DatesHeld(db, Apply(env, db, step), u)
  {
    hide CategoryName, CategoryCreated;
  }

  lemma TagStepHolds(env: Env, db: Db, u: UserId, step: Step)
    requires Aggregate(db) && Enabled(db, step) && !E2ee(db, u)
             && (step.CreateTag? || step.UpdateTag? || step.DeleteTag?)
    ensures DatesHeld(db, Apply(env, db, step), u)
  {
    hide Aggregate, TagsOk, TagNamesUnique, DatesHeld, E2ee, Catalog.CreateTag, Catalog.UpdateTag, Catalog.DeleteTag;
    AggregateTags(db);
    match step
    case CreateTag(v, id, req) => CreateTagHolds(env, db, u, v, id, req);
    case UpdateTag(v, id, req) => UpdateTagHolds(env, db, u, v, id, req);
    case DeleteTag(v, id, del) => DeleteTagHolds(db, u, v, id, del);
  }

  lemma EventStepHolds(env: Env, db: Db, u: UserId, step: Step)
    requires Aggregate(db) && Enabled(db, step) && !E2ee(db, u) && (step.CreateEvent? || step.UpdateEvent?)
    ensures DatesHeld(db, Apply(env, db, step), u)
  {
    hide Aggregate, TagsOk, TagNamesUnique, DatesHeld, E2ee, HasKind, NewTagIds, CatalogEvents.CreateEvent,
      CatalogEvents.UpdateEvent;
    AggregateTags(db);
    match step
    case CreateEvent(v, id, req, names, ids) => CreateEventHolds(env, db, u, v, id, req, names, ids);
    case UpdateEvent(v, id, req, names, ids) => UpdateEventHolds(env, db, u, v, id, req, names, ids);
  }

  lemma MigrationStepHolds(env: Env, db: Db, u: UserId, step: Step)
    requires Aggregate(db) && Enabled(db, step) && !E2ee(db, u) && (step.Enable? || step.Disable?)
    requires !(step.Enable? && step.u == u)
    ensures DatesHeld(db, Apply(env, db, step), u)
  {
    hide Aggregate, DatesHeld, E2ee, NoBlanks, ShapesOk, IsKeyCheck, Swap, AtRestData, Normal;
    HeldBySame(db, db, u);
    match step
    case Enable(v, check, data) => SwapHolds(db, u, v, true, Some(check), data);
    case Disable(v, data) => SwapHolds(db, u, v, false, None, AtRestData(env.cipher, v, Normal(env.alphabet, data)));
  }

  lemma UserStepHolds(env: Env, db: Db, u: UserId, step: Step)
    requires Aggregate(db) && Enabled(db, step) && !E2ee(db, u)
             && (step.Register? || step.DeleteCategory? || step.Purge?)
    ensures DatesHeld(db, Apply(env, db, step), u)
  {
    hide Aggregate, TagsOk, CategoriesOk, TagNamesUnique, DatesHeld, E2ee, NewIds, Catalog.Register,
      Catalog.DeleteCategory, Catalog.Purge;
    AggregateTags(db);
    AggregateCategories(db);
    match step
    case Register(v, d, p, o) => RegisterHolds(env, db, u, v, d, p, o);
    case DeleteCategory(v, id, move, del) => DeleteCategoryHolds(db, u, v, id, move, del);
    case Purge(v, d, p, o) => PurgeHolds(env, db, u, v, d, p, o);
  }

  // Only by turning E2EE on does a user give his date tags away
  lemma StepHoldsDates(env: Env, db: Db, u: UserId, step: Step)
    requires Aggregate(db) && Enabled(db, step) && !E2ee(db, u)
    requires !(step.Enable? && step.u == u)
    ensures DatesHeld(db, Apply(env, db, step), u)
  {
    hide *;
    if step.CreateTag? || step.UpdateTag? || step.DeleteTag? {
      TagStepHolds(env, db, u, step);
    } else if step.CreateEvent? || step.UpdateEvent? {
      EventStepHolds(env, db, u, step);
    } else if step.Enable? || step.Disable? {
      MigrationStepHolds(env, db, u, step);
    } else if step.Register? || step.DeleteCategory? || step.Purge? {
      UserStepHolds(env, db, u, step);
    } else if step.CreateCategory? || step.UpdateCategory? {
      CategoryStepHolds(env, db, u, step);
    } else {
      GroupStepHolds(env, db, u, step);
    }
  }

  lemma AggregateCategories(db: Db)
    requires Aggregate(db)
    ensures CategoriesOk(db.users, db.categories)
  {
  }

  lemma {:induction false} RunHoldsDates(env: Env, db: Db, u: UserId, steps: seq<Step>)
    requires Aggregate(db) && Legal(env, db, steps) && !E2ee(db, u)
    requires forall s | s in steps :: !(s.Enable? && s.u == u)
    ensures Aggregate(Run(env, db, steps)) && DatesHeld(db, Run(env, db, steps), u)
    decreases |steps|
  {
    HeldBySame(db, db, u);
    hide Aggregate, DatesHeld, Enabled, Apply, E2ee;
    if steps != [] {
      var next := Apply(env, db, steps[0]);
      StepKeepsAggregate(env, db, steps[0]);
      assert steps[0] in steps;
      StepHoldsDates(env, db, u, steps[0]);
      HeldOn(db, next, u);
      RunHoldsDates(env, next, u, steps[1..]);
      HeldIsTransitive(db, next, Run(env, next, steps[1..]), u);
    }
  }

  // The steps of anyone between the lookup of an event's date tags and its write, its user not
  // turning E2EE on
  ghost predicate Between(env: Env, db: Db, steps: seq<Step>, u: UserId, clientTags: seq<Id>, names: seq<string>,
                          ids: seq<Id>) {
    && Aggregate(db) && u in db.users && !E2ee(db, u)
    && Legal(env, db, steps) && (forall s | s in steps :: !(s.Enable? && s.u == u))
    && (forall t | t in clientTags :: OwnsTag(db.categories, db.tags, u, t))
    && |ids| == |names| && NewTagIds(db, ids) && NewTagIds(Run(env, db, steps), ids)
  }

  lemma BetweenIsLookedUp(env: Env, db: Db, steps: seq<Step>, u: UserId, clientTags: seq<Id>, names: seq<string>,
                          ids: seq<Id>)
    requires Between(env, db, steps, u, clientTags, names, ids)
    ensures LookedUp(db, Run(env, db, steps), u, clientTags, names, ids)
    ensures Aggregate(Run(env, db, steps)) && TagNamesUnique(Run(env, db, steps).tags)
  {
    hide Aggregate, DatesHeld, Legal, Run, NewTagIds, HasKind, TagNamesUnique, TagsOk, E2ee, OwnsTag;
    UserHasDates(db, u);
    RunHoldsDates(env, db, u, steps);
    AggregateTags(Run(env, db, steps));
  }

  // Whatever other writes of any user land between the lookup of an event's date tags and the
  // insert: the create goes through exactly when the client's tags are still there and no event
  // of the user has its client id; then each date name has one row in the date category, and
  // the event is linked to exactly the client's tags and those rows. Else nothing is written.
  lemma InterleavedCreateLinksExactly(env: Env, db: Db, steps: seq<Step>, u: UserId, e: Id, event: Event,
                                      clientTags: seq<Id>, names: seq<string>, ids: seq<Id>)
    requires Between(env, db, steps, u, clientTags, names, ids) && e !in Run(env, db, steps).events
    ensures HasKind(db.categories, u, Date)
    ensures var later := Run(env, db, steps);
            var (next, outcome) := InsertEvent(env, later, u, e, event, clientTags, BuildDateTags(env, db, u, names),
                ids);
            && (outcome.Done? <==> TagsStand(later, clientTags) && ClientIdFree(later, u, e, event.clientId))
            && (outcome.DuplicateClientId? <==> !ClientIdFree(later, u, e, event.clientId))
            && (outcome.Done? ==> outcome == Done(e) && WrittenExactly(env, next, u, e, event, clientTags, names,
                CategoryOfKind(db, u, Date)))
            && (!outcome.Done? ==> next == later)
  {
    assert Legal(env, db, steps);
    hide Between, InsertEvent, BuildDateTags, WrittenExactly, TagsStand, ClientIdFree, Run, TagNamesUnique, Aggregate;
    BetweenIsLookedUp(env, db, steps, u, clientTags, names, ids);
    LateInsertLinksExactly(env, db, Run(env, db, steps), u, e, event, clientTags, names, ids);
  }

  // The same for an update, which goes through exactly when the client's tags and the event
  // are still there, and leaves the client id as it finds it
  lemma InterleavedUpdateLinksExactly(env: Env, db: Db, steps: seq<Step>, u: UserId, e: Id, description: string,
                                      period: DateTags.Period, clientTags: seq<Id>, names: seq<string>, ids: seq<Id>)
    requires Between(env, db, steps, u, clientTags, names, ids)
    ensures HasKind(db.categories, u, Date)
    ensures var later := Run(env, db, steps);
            var (next, outcome) := RewriteEvent(env, later, u, e, description, period, clientTags,
                BuildDateTags(env, db, u, names), ids);
            var mine := e in later.events && later.events[e].user == u;
            && (outcome.Done? <==> TagsStand(later, clientTags) && mine)
            && (outcome.NotFound? <==> !mine)
            && (outcome.Done? ==> WrittenExactly(env, next, u, e,
                later.events[e].(description := description, period := period), clientTags, names,
                CategoryOfKind(db, u, Date)))
            && (!outcome.Done? ==> next == later)
  {
    assert Legal(env, db, steps);
    hide Between, RewriteEvent, BuildDateTags, WrittenExactly, TagsStand, Run, TagNamesUnique, Aggregate;
    BetweenIsLookedUp(env, db, steps, u, clientTags, names, ids);
    LateRewriteLinksExactly(env, db, Run(env, db, steps), u, e, description, period, clientTags, names, ids);
  }

  // What stands of the tags looked up is still the user's own
  ghost predicate StillOwned(db: Db, u: UserId, clientTags: seq<Id>) {
    forall t | t in clientTags && t in db.tags :: OwnsTag(db.categories, db.tags, u, t)
  }

  lemma KnownTagsStand(env: Env, db: Db, later: Db, u: UserId, names: seq<string>)
    requires HasKind(db.categories, u, Date) && DatesHeld(db, later, u)
    ensures var list := BuildDateTags(env, db, u, names);
            && InDates(list, CategoryOfKind(db, u, Date)) && OwnsCategory(later, u, CategoryOfKind(db, u, Date))
            && forall t | Known(t) in list :: t in later.tags && OwnsTag(later.categories, later.tags, u, t)
  {
    var dates := CategoryOfKind(db, u, Date);
    assert IsKind(later, u, Date, dates);
  }

  // Neither write breaks the aggregate, whatever landed before it: client ids stay unique, and
  // no event comes back from a deletion
  lemma InterleavedWritesKeep(env: Env, db: Db, steps: seq<Step>, u: UserId, e: Id, event: Event,
                              clientTags: seq<Id>, names: seq<string>, ids: seq<Id>)
    requires Between(env, db, steps, u, clientTags, names, ids) && StillOwned(Run(env, db, steps), u, clientTags)
    requires event.user == u && PeriodOk(event.period) && u in Run(env, db, steps).users
    ensures HasKind(db.categories, u, Date)
    ensures var later, list := Run(env, db, steps), BuildDateTags(env, db, u, names);
            && (e !in later.events ==> Aggregate(InsertEvent(env, later, u, e, event, clientTags, list, ids).0))
            && Aggregate(RewriteEvent(env, later, u, e, event.description, event.period, clientTags, list, ids).0)
  {
    BetweenIsLookedUp(env, db, steps, u, clientTags, names, ids);
    var later := Run(env, db, steps);
    CheckedTagsAreNotNew(db, later, u, clientTags, names, ids);
    hide Between, Run, TagNamesUnique, Aggregate, PeriodOk, DatesHeld;
    KnownTagsStand(env, db, later, u, names);
    LateWritesKeep(env, later, u, e, event, clientTags, BuildDateTags(env, db, u, names), ids,
        CategoryOfKind(db, u, Date));
  }

  lemma LateWritesKeep(env: Env, later: Db, u: UserId, e: Id, event: Event, clientTags: seq<Id>, list: seq<DateTag>,
                       ids: seq<Id>, dates: Id)
    requires Aggregate(later) && |ids| == |list| && InDates(list, dates) && NewTagIds(later, ids)
    requires OwnsCategory(later, u, dates) && event.user == u && u in later.users && PeriodOk(event.period)
    requires StillOwned(later, u, clientTags) && forall t | t in clientTags :: t !in ids
    requires forall t | Known(t) in list :: t in later.tags && OwnsTag(later.categories, later.tags, u, t)
    ensures e !in later.events ==> Aggregate(InsertEvent(env, later, u, e, event, clientTags, list, ids).0)
    ensures Aggregate(RewriteEvent(env, later, u, e, event.description, event.period, clientTags, list, ids).0)
  {
    hide OwnsTag, PeriodOk, CategoriesOk, DefaultsOk, TagsOk, TagNamesUnique, GroupsOk, KeysUnique, MembersOk,
      EventsOk, LinksOk, WriteEvent, NewTagIds, InDates, EventCreated, ClientIdFree, OwnsCategory;
    if e in later.events {
      if later.events[e].user == u {
        OwnClientIdIsFree(later, u, e);
        WriteEventKeeps(env, later, u, e,
            later.events[e].(description := event.description, period := event.period), clientTags, list, ids, dates);
      }
    } else if !(exists f :: EventCreated(later, u, event.clientId, f)) {
      NotCreatedIsFree(later, u, e, event.clientId);
      WriteEventKeeps(env, later, u, e, event, clientTags, list, ids, dates);
    }
  }

  // The name of the month or the year of a day of the period, or Ongoing for an open one
  ghost predicate NamesADay(name: string, p: DateTags.Period) {
    DateTags.NamesDays(name, p.start, DateTags.LastOf(p)) || (p.ongoing && name == DateTags.ONGOING_TAG)
  }

  lemma PeriodNamesAreDayNames(p: DateTags.Period, name: string)
    requires PeriodOk(p)
    ensures DateTags.NamesPeriod(name, p) <==> NamesADay(name, p)
  {
    DateTags.MonthsNameDays(p.start, DateTags.LastOf(p), name);
  }

  ghost predicate NamedRow(env: Env, tags: map<Id, Tag>, u: UserId, dates: Id, p: DateTags.Period, t: Id) {
    exists name :: NamesADay(name, p) && Bears(tags, dates, env.cipher.enc(u, name), t)
  }

  lemma DateRowsAreNamed(env: Env, tags: map<Id, Tag>, u: UserId, dates: Id, p: DateTags.Period, names: seq<string>,
                         t: Id)
    requires PeriodOk(p) && NamesOf(names, p)
    ensures DateRow(env, tags, u, dates, names, t) <==> NamedRow(env, tags, u, dates, p, t)
  {
    hide DateTags.NamesPeriod, NamesADay, PeriodOk, Distinct, Bears;
    if DateRow(env, tags, u, dates, names, t) {
      var i :| 0 <= i < |names| && Bears(tags, dates, env.cipher.enc(u, names[i]), t);
      assert names[i] in names;
      PeriodNamesAreDayNames(p, names[i]);
    }
    if NamedRow(env, tags, u, dates, p, t) {
      var name :| NamesADay(name, p) && Bears(tags, dates, env.cipher.enc(u, name), t);
      PeriodNamesAreDayNames(p, name);
      var i :| 0 <= i < |names| && names[i] == name;
    }
  }

  function EventOf(env: Env, db: Db, u: UserId, req: EventRequest): Event {
    Event(u, StoredDescription(env, db, u, req.description), DateTags.Normalised(req.period), req.clientId)
  }

  // A create without E2EE that is neither a replay nor refused by its checks goes through
  lemma CreateLinksExactly(env: Env, db: Db, u: UserId, e: Id, req: EventRequest, names: seq<string>, ids: seq<Id>)
    requires Aggregate(db) && u in db.users && !E2ee(db, u) && e !in db.events
    requires |ids| == |names| && NewTagIds(db, ids)
    ensures HasKind(db.categories, u, Date)
    ensures var (next, outcome) := CatalogEvents.CreateEvent(env, db, u, e, req, names, ids);
            && (outcome == Done(e)
                <==> EventAccepted(db, u, req) && !exists f :: EventCreated(db, u, req.clientId, f))
            && (outcome == Done(e) ==> WrittenExactly(env, next, u, e, EventOf(env, db, u, req), req.tags, names,
                CategoryOfKind(db, u, Date)))
  {
    UserHasDates(db, u);
    AggregateTags(db);
    hide Aggregate, BuildDateTags, NewTagIds, HasKind, TagNamesUnique, TagsOk, EventCreated, EventAccepted, LookedUp,
      StoredDescription, WrittenExactly, ClientIdFree, InsertEvent, TagsStand, CatalogEvents.CreateEvent;
    CreateIsInsert(env, db, u, e, req, names, ids);
    if !(exists f :: EventCreated(db, u, req.clientId, f)) && EventAccepted(db, u, req) {
      AcceptedIsLookedUp(db, u, req, names, ids);
      NotCreatedIsFree(db, u, e, req.clientId);
      LateInsertLinksExactly(env, db, db, u, e, EventOf(env, db, u, req), req.tags, names, ids);
    }
  }

  lemma CreateIsInsert(env: Env, db: Db, u: UserId, e: Id, req: EventRequest, names: seq<string>, ids: seq<Id>)
    requires HasKind(db.categories, u, Date) && !E2ee(db, u) && |ids| == |names|
    ensures var r := CatalogEvents.CreateEvent(env, db, u, e, req, names, ids);
            if EventAccepted(db, u, req) && !exists f :: EventCreated(db, u, req.clientId, f) then
              r == InsertEvent(env, db, u, e, EventOf(env, db, u, req), req.tags, BuildDateTags(env, db, u, names), ids)
            else !r.1.Done?
  {
    assert ids[..|names|] == ids;
    hide BuildDateTags, HasKind, EventCreated, EventAccepted, StoredDescription, InsertEvent, E2ee;
  }

  lemma AcceptedIsLookedUp(db: Db, u: UserId, req: EventRequest, names: seq<string>, ids: seq<Id>)
    requires HasKind(db.categories, u, Date) && !E2ee(db, u) && EventAccepted(db, u, req)
    requires |ids| == |names| && NewTagIds(db, ids)
    ensures LookedUp(db, db, u, req.tags, names, ids) && TagsStand(db, req.tags)
  {
    hide NewTagIds, HasKind, DatesHeld;
    HeldBySame(db, db, u);
  }

  // A created event of a user without E2EE is linked to exactly the tags the client chose and
  // the date tags that name a month or a year of one of its days, or Ongoing
  lemma CreatedEventIsTaggedByItsDays(env: Env, db: Db, u: UserId, e: Id, req: EventRequest, names: seq<string>,
                                      ids: seq<Id>)
    requires Aggregate(db) && u in db.users && !E2ee(db, u) && e !in db.events
    requires |ids| == |names| && NewTagIds(db, ids) && NamesOf(names, DateTags.Normalised(req.period))
    ensures HasKind(db.categories, u, Date)
    ensures var (next, outcome) := CatalogEvents.CreateEvent(env, db, u, e, req, names, ids);
            var period := DateTags.Normalised(req.period);
            && (outcome == Done(e)
                <==> EventAccepted(db, u, req) && !exists f :: EventCreated(db, u, req.clientId, f))
            && (outcome == Done(e) ==>
                  && e in next.events && next.events[e] == EventOf(env, db, u, req)
                  && forall t :: Linked(next, e, t)
                      <==> t in req.tags || NamedRow(env, next.tags, u, CategoryOfKind(db, u, Date), period, t))
  {
    hide Aggregate, HasKind, NewTagIds, CatalogEvents.CreateEvent, EventCreated, Linked, DateRow, NamedRow, NamesOf,
      TagNamesUnique, StoredDescription, E2ee;
    CreateLinksExactly(env, db, u, e, req, names, ids);
    var next := CatalogEvents.CreateEvent(env, db, u, e, req, names, ids).0;
    if EventAccepted(db, u, req) {
      NormalisedIsOk(req.period);
      hide EventAccepted, PeriodOk;
      forall t
        ensures DateRow(env, next.tags, u, CategoryOfKind(db, u, Date), names, t)
                <==> NamedRow(env, next.tags, u, CategoryOfKind(db, u, Date), DateTags.Normalised(req.period), t)
      {
        DateRowsAreNamed(env, next.tags, u, CategoryOfKind(db, u, Date), DateTags.Normalised(req.period), names, t);
      }
    }
  }
}
