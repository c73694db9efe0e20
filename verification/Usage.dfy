/** The counts shown before a tag or a category is deleted, against what the deletion does. */
module Usage {
  import opened Encryption
  import opened Catalog
  import opened CatalogInvariant

  // ---- The counting queries ----

  // The events a user's links tie to some tags
  function LinkedEvents(links: set<Link>, u: UserId, tags: set<Id>): set<Id> {
    set l | l in links && l.user == u && l.tag in tags :: l.event
  }

  predicate HasTagIn(links: set<Link>, e: Id, tags: set<Id>) {
    exists l | l in links :: l.event == e && l.tag in tags
  }

  // The tags that keep an event from being left date-only
  function PlainTags(db: Db): set<Id> {
    set t | t in db.tags && db.tags[t].key.category in db.categories
        && !db.categories[db.tags[t].key.category].kind.Date?
  }

  // The events with one of the tags and no other tag but date tags
  function ExclusiveEvents(db: Db, u: UserId, tags: set<Id>): set<Id> {
    set e | e in db.events && db.events[e].user == u && HasTagIn(db.links, e, tags)
        && !HasTagIn(db.links, e, PlainTags(db) - tags)
  }

  datatype Counts = Counts(events: nat, exclusive: nat)

  function TagUsage(db: Db, u: UserId, id: Id): Counts {
    var synonymGroup := SynonymGroup(db.tags, id);
    Counts(|LinkedEvents(db.links, u, synonymGroup)|, |ExclusiveEvents(db, u, synonymGroup)|)
  }

  function CategoryUsage(db: Db, u: UserId, c: Id): Counts {
    var tags := TagsIn(db.tags, {c});
    Counts(|LinkedEvents(db.links, u, tags)|, |ExclusiveEvents(db, u, tags)|)
  }

  // ---- What a deletion does ----

  // The events of one database that are not in the other
  function GoneEvents(db: Db, next: Db): set<Id> {
    db.events.Keys - next.events.Keys
  }

  predicate InDateCategory(db: Db, t: Id) {
    t in db.tags && db.tags[t].key.category in db.categories && db.categories[db.tags[t].key.category].kind == Date
  }

  // The event has only date tags, or none
  ghost predicate DateOnly(db: Db, e: Id) {
    forall l | l in db.links && l.event == e :: InDateCategory(db, l.tag)
  }

  // The events that lose their last plain tag to a deletion that keeps the events
  ghost function LeftDateOnly(db: Db, next: Db, tags: set<Id>): set<Id> {
    set e | e in next.events && HasTagIn(db.links, e, tags) && DateOnly(next, e)
  }

  lemma CountGone(db: Db, next: Db, doomed: set<Id>)
    requires next.events == db.events - doomed && doomed <= db.events.Keys
    ensures GoneEvents(db, next) == doomed && |db.events| - |next.events| == |doomed|
  {
    assert next.events.Keys == db.events.Keys - doomed;
    assert |db.events.Keys| == |db.events| && |next.events.Keys| == |next.events|;
  }

  // Under the invariant the two ways to find the doomed events agree
  lemma DoomedAreLinked(db: Db, u: UserId, tags: set<Id>)
    requires LinksOk(db.categories, db.tags, db.events, db.links) && forall t | t in tags ::
             OwnsTag(db.categories, db.tags, u, t)
    ensures EventsOf(db.events, u) * EventsTagged(db.links, tags) == LinkedEvents(db.links, u, tags)
    ensures LinkedEvents(db.links, u, tags) <= db.events.Keys
  {
  }

  lemma OwnedTagsEventsOwned(db: Db, u: UserId, tags: set<Id>, e: Id)
    requires LinksOk(db.categories, db.tags, db.events, db.links) && forall t | t in tags ::
             OwnsTag(db.categories, db.tags, u, t)
    requires HasTagIn(db.links, e, tags)
    ensures e in db.events && db.events[e].user == u
  {
  }

  lemma GroupIsOwned(db: Db, u: UserId, id: Id)
    requires TagsOk(db.categories, db.tags) && OwnsTag(db.categories, db.tags, u, id)
    ensures forall t | t in SynonymGroup(db.tags, id) :: OwnsTag(db.categories, db.tags, u, t)
  {
    forall t | t in SynonymGroup(db.tags, id)
      ensures OwnsTag(db.categories, db.tags, u, t)
    {
      assert ParentOk(db.tags, t);
    }
  }

  lemma GroupGoes(db: Db, id: Id)
    requires id in db.tags && db.tags[id].parent.None?
    ensures {id} + SynonymsOf(db.tags, {id}) == SynonymGroup(db.tags, id)
  {
  }

  // Dropping tags leaves date-only exactly the events that had nothing else
  lemma DroppedLeavesExclusive(db: Db, u: UserId, tags: set<Id>)
    requires LinksOk(db.categories, db.tags, db.events, db.links) && forall t | t in tags ::
             OwnsTag(db.categories, db.tags, u, t)
    ensures LeftDateOnly(db, DropTags(db, tags), tags) == ExclusiveEvents(db, u, tags)
  {
    var next := DropTags(db, tags);
    forall e | HasTagIn(db.links, e, tags)
      ensures e in db.events && db.events[e].user == u
    {
      OwnedTagsEventsOwned(db, u, tags, e);
    }
    forall e
      ensures DateOnly(next, e) <==> !HasTagIn(db.links, e, PlainTags(db) - tags)
    {
      if HasTagIn(db.links, e, PlainTags(db) - tags) {
        var l :| l in db.links && l.event == e && l.tag in PlainTags(db) - tags;
        assert l in next.links && !InDateCategory(next, l.tag);
      }
    }
    hide DateOnly, HasTagIn, PlainTags;
  }

  // For a main tag, the first count is the number of events a deletion with the events takes
  // away, and the second the number of events a deletion that keeps them leaves date-only
  lemma TagUsagePredictsDeletion(db: Db, u: UserId, id: Id)
    requires Aggregate(db) && OwnsTag(db.categories, db.tags, u, id) && db.tags[id].parent.None?
             && !IsServerTag(db, u, id)
    ensures var (kept, gone) := (DeleteTag(db, u, id, false).0, DeleteTag(db, u, id, true).0);
            && TagUsage(db, u, id).events == |db.events| - |gone.events|
            && GoneEvents(db, gone) == LinkedEvents(db.links, u, SynonymGroup(db.tags, id))
            && kept.events == db.events
            && TagUsage(db, u, id).exclusive == |LeftDateOnly(db, kept, SynonymGroup(db.tags, id))|
  {
    var synonymGroup := SynonymGroup(db.tags, id);
    GroupIsOwned(db, u, id);
    GroupGoes(db, id);
    DoomedAreLinked(db, u, synonymGroup);
    DroppedLeavesExclusive(db, u, synonymGroup);
    hide Aggregate, SynonymGroup, SynonymsOf, LinkedEvents, ExclusiveEvents, LeftDateOnly, EventsOf, EventsTagged,
      IsServerTag;
    CountGone(db, DeleteTag(db, u, id, true).0, LinkedEvents(db.links, u, synonymGroup));
  }

  // A synonym is reported unused: it roots no group
  lemma SynonymUsageIsZero(db: Db, u: UserId, id: Id)
    requires TagsOk(db.categories, db.tags) && id in db.tags && db.tags[id].parent.Some?
    ensures TagUsage(db, u, id) == Counts(0, 0)
  {
    forall t | t in db.tags
      ensures Root(db.tags, t) != id
    {
      assert ParentOk(db.tags, t);
    }
    assert SynonymGroup(db.tags, id) == {};
    assert LinkedEvents(db.links, u, {}) == {} && ExclusiveEvents(db, u, {}) == {};
  }

  lemma TagsInOwned(db: Db, u: UserId, c: Id)
    requires OwnsCategory(db, u, c)
    ensures forall t | t in TagsIn(db.tags, {c}) :: OwnsTag(db.categories, db.tags, u, t)
  {
  }

  lemma NoSynonymElsewhere(db: Db, c: Id)
    requires TagsOk(db.categories, db.tags)
    ensures SynonymsOf(db.tags, TagsIn(db.tags, {c})) <= TagsIn(db.tags, {c})
  {
    forall t | t in SynonymsOf(db.tags, TagsIn(db.tags, {c}))
      ensures t in TagsIn(db.tags, {c})
    {
      assert ParentOk(db.tags, t);
    }
  }

  // Removing the emptied category does not change what is left of the events
  lemma DroppedWithCategory(db: Db, c: Id)
    requires TagsOk(db.categories, db.tags)
    ensures var (dropped, next) := (DropTags(db, TagsIn(db.tags, {c})), DeleteCategories(db, {c}));
            next.tags == dropped.tags && next.links == dropped.links && next.events == db.events
                && forall t :: InDateCategory(next, t) <==> InDateCategory(dropped, t)
  {
    NoSynonymElsewhere(db, c);
    var tags := TagsIn(db.tags, {c});
    assert tags + SynonymsOf(db.tags, tags) == tags;
    var dropped := DropTags(db, tags);
    var next := DeleteCategories(db, {c});
    assert next.tags == dropped.tags && next.links == dropped.links;
    assert next.categories == db.categories - {c} && dropped.categories == db.categories;
    assert forall t | t in dropped.tags :: dropped.tags[t].key.category != c;
    hide DropTags, DeleteCategories, TagsIn, TagsOk;
  }

  lemma KeptCategoryEvents(db: Db, u: UserId, c: Id)
    requires TagsOk(db.categories, db.tags) && LinksOk(db.categories, db.tags, db.events, db.links)
             && OwnsCategory(db, u, c)
    ensures var kept := DeleteCategories(db, {c});
            kept.events == db.events && LeftDateOnly(db, kept, TagsIn(db.tags, {c}))
                == ExclusiveEvents(db, u, TagsIn(db.tags, {c}))
  {
    var tags := TagsIn(db.tags, {c});
    var kept, dropped := DeleteCategories(db, {c}), DropTags(db, tags);
    TagsInOwned(db, u, c);
    DroppedWithCategory(db, c);
    assert dropped.events == db.events;
    hide TagsOk, LinksOk, TagsIn, DropTags, DeleteCategories, InDateCategory, ExclusiveEvents;
    DroppedLeavesExclusive(db, u, tags);
    assert forall e :: DateOnly(kept, e) <==> DateOnly(dropped, e);
    hide DateOnly, HasTagIn;
    assert LeftDateOnly(db, kept, tags) == LeftDateOnly(db, dropped, tags);
  }

  lemma GoneCategoryEvents(db: Db, u: UserId, c: Id)
    requires LinksOk(db.categories, db.tags, db.events, db.links) && OwnsCategory(db, u, c)
    ensures var tags := TagsIn(db.tags, {c});
            var gone := DeleteCategories(DeleteEvents(db, EventsOf(db.events, u) * EventsTagged(db.links, tags)), {c});
            GoneEvents(db, gone) == LinkedEvents(db.links, u, tags)
                && |db.events| - |gone.events| == |LinkedEvents(db.links, u, tags)|
  {
    var tags := TagsIn(db.tags, {c});
    TagsInOwned(db, u, c);
    DoomedAreLinked(db, u, tags);
    var doomed := LinkedEvents(db.links, u, tags);
    assert DeleteEvents(db, doomed).events == db.events - doomed;
    NothingLeftIn(DeleteEvents(db, doomed), {c});
    hide LinksOk, TagsIn, LinkedEvents, EventsOf, EventsTagged, DeleteEvents, DeleteTags, DeleteGroups, GoneEvents;
    CountGone(db, DeleteCategories(DeleteEvents(db, doomed), {c}), doomed);
  }

  // The same for a category that may be deleted
  lemma CategoryUsagePredictsDeletion(db: Db, u: UserId, c: Id)
    requires Aggregate(db) && OwnsCategory(db, u, c) && !db.categories[c].locked
    ensures var (kept, gone) := (DeleteCategory(db, u, c, false, false).0, DeleteCategory(db, u, c, false, true).0);
            && CategoryUsage(db, u, c).events == |db.events| - |gone.events|
            && GoneEvents(db, gone) == LinkedEvents(db.links, u, TagsIn(db.tags, {c}))
            && kept.events == db.events
            && CategoryUsage(db, u, c).exclusive == |LeftDateOnly(db, kept, TagsIn(db.tags, {c}))|
  {
    hide CategoriesOk, DefaultsOk, TagsOk, GroupsOk, MembersOk, EventsOk, LinksOk, TagNamesUnique, KeysUnique, TagsIn,
      LinkedEvents, ExclusiveEvents, EventsOf, EventsTagged, DeleteCategories, DeleteEvents, LeftDateOnly, GoneEvents;
    KeptCategoryEvents(db, u, c);
    GoneCategoryEvents(db, u, c);
  }
}
