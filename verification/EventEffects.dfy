/** What the use cases of events answer, and what they change, told from the request alone. */
module EventEffects {
  import opened Collections
  import opened Options
  import opened Encryption
  import opened Catalog
  import opened CatalogInvariant
  import opened CatalogEvents
  import CatalogRuns
  import opened DateTagTheorems
  import opened StoredValues
  import DateTags

  // A period the service takes, tags of the user's own, and under E2EE a description its
  // devices encrypted, or none
  ghost predicate Asked(db: Db, u: UserId, req: EventRequest) {
    && DateTags.PeriodAccepted(req.period)
    && (forall t | t in req.tags :: t in db.tags && OwnsCategory(db, u, db.tags[t].key.category))
    && (E2ee(db, u) ==> req.description == "" || IsBlob(req.description))
  }

  // The user's event that was made for the client id of the request
  predicate Sent(db: Db, u: UserId, req: EventRequest, e: Id) {
    e in db.events && db.events[e].user == u && req.clientId.Some? && db.events[e].clientId == req.clientId
  }

  // Without E2EE a row of the user's date category that names a month or a year of a day of
  // the period, or Ongoing
  ghost predicate NamesIt(env: Env, db: Db, tags: map<Id, Tag>, u: UserId, p: DateTags.Period, t: Id) {
    && !E2ee(db, u) && t in tags && IsKind(db, u, Date, tags[t].key.category)
    && exists name :: NamesADay(name, p) && tags[t].key.name == env.cipher.enc(u, name)
  }

  ghost predicate HasDateTag(env: Env, db: Db, tags: map<Id, Tag>, u: UserId, p: DateTags.Period, name: string) {
    exists t :: NamesIt(env, db, tags, u, p, t) && tags[t].key.name == env.cipher.enc(u, name)
  }

  // A date tag is there for each such name, and no tag was changed or made but for these
  ghost predicate DatesMade(env: Env, db: Db, tags: map<Id, Tag>, u: UserId, p: DateTags.Period) {
    && (forall t | t in db.tags :: t in tags && tags[t] == db.tags[t])
    && (forall t | t in tags && t !in db.tags ::
          NamesIt(env, db, tags, u, p, t) && tags[t].key.index.None? && tags[t].parent.None?)
    && (!E2ee(db, u) ==> forall name | NamesADay(name, p) :: HasDateTag(env, db, tags, u, p, name))
  }

  ghost predicate EventIs(env: Env, db: Db, u: UserId, event: Event, req: EventRequest, clientId: Option<string>) {
    && event.user == u && event.clientId == clientId && event.period == DateTags.Normalised(req.period)
    && SaysText(env, E2ee(db, u), u, event.description, req.description)
  }

  // Which links stand after a write: those of other events, and those to the tags of the
  // request and the date tags
  ghost predicate LinkWritten(env: Env, db: Db, next: Db, u: UserId, e: Id, req: EventRequest, l: Link) {
    if l.event != e then l in db.links
    else l.user == u && (l.tag in req.tags || NamesIt(env, db, next.tags, u, DateTags.Normalised(req.period), l.tag))
  }

  ghost predicate EventWritten(env: Env, db: Db, next: Db, u: UserId, e: Id, req: EventRequest,
                               clientId: Option<string>) {
    && next == db.(tags := next.tags, events := next.events, links := next.links)
    && next.events.Keys == db.events.Keys + {e} && EventIs(env, db, u, next.events[e], req, clientId)
    && (forall f | f in db.events && f != e :: next.events[f] == db.events[f])
    && DatesMade(env, db, next.tags, u, DateTags.Normalised(req.period))
    && (forall l :: l in next.links <==> LinkWritten(env, db, next, u, e, req, l))
  }

  // ---- Proof ----

  // A user's date category is the only one
  lemma NamesItIsNamed(env: Env, db: Db, tags: map<Id, Tag>, u: UserId, p: DateTags.Period, t: Id)
    requires CategoriesOk(db.users, db.categories) && HasKind(db.categories, u, Date) && !E2ee(db, u)
    ensures NamesIt(env, db, tags, u, p, t) <==> NamedRow(env, tags, u, CategoryOfKind(db, u, Date), p, t)
  {
    hide NamesADay;
    var dates := CategoryOfKind(db, u, Date);
    if NamesIt(env, db, tags, u, p, t) {
      assert Apart(db.categories[tags[t].key.category], db.categories[dates]) || tags[t].key.category == dates;
      var name :| NamesADay(name, p) && tags[t].key.name == env.cipher.enc(u, name);
      assert Bears(tags, dates, env.cipher.enc(u, name), t);
    }
  }

  // Each row an upsert made is among the rows it answers with
  lemma {:induction false} NewRowsAreMade(env: Env, tags: map<Id, Tag>, u: UserId, list: seq<DateTag>, ids: seq<Id>)
    requires |ids| == |list|
    ensures var (more, made) := CreateAll(env, tags, u, list, ids);
            forall t | t in more && t !in tags :: t in made
    decreases |list|
  {
    if list != [] {
      NewRowsAreMade(env, tags, u, list[..|list| - 1], ids[..|ids| - 1]);
    }
  }

  lemma EachNameHasARow(env: Env, db: Db, tags: map<Id, Tag>, u: UserId, p: DateTags.Period, names: seq<string>,
                        name: string)
    requires HasKind(db.categories, u, Date) && !E2ee(db, u) && PeriodOk(p) && NamesOf(names, p) && NamesADay(name, p)
    requires forall n | n in names ::
               exists t :: Bears(tags, CategoryOfKind(db, u, Date), env.cipher.enc(u, n), t)
    ensures HasDateTag(env, db, tags, u, p, name)
  {
    PeriodNamesAreDayNames(p, name);
    hide NamesADay, PeriodOk, DateTags.NamesPeriod, Distinct;
    var t :| Bears(tags, CategoryOfKind(db, u, Date), env.cipher.enc(u, name), t);
    assert NamesIt(env, db, tags, u, p, t);
  }

  lemma UpsertsMade(env: Env, db: Db, u: UserId, names: seq<string>, ids: seq<Id>)
    requires Aggregate(db) && HasKind(db.categories, u, Date) && !E2ee(db, u)
    requires |ids| == |names| && NewTagIds(db, ids)
    ensures var dates := CategoryOfKind(db, u, Date);
            var (more, made) := CreateAll(env, db.tags, u, BuildDateTags(env, db, u, names), ids);
            && RowsMade(env, more, u, dates, names, made) && DateTagsAdded(db.tags, more, dates)
            && forall t | t in more && t !in db.tags :: t in made
  {
    var dates := CategoryOfKind(db, u, Date);
    var list := BuildDateTags(env, db, u, names);
    assert InDates(list, dates);
    hide Aggregate, TagsOk, TagNamesUnique, CreateAll, DatesHeld, BuildDateTags, HasKind, Settles, RowsMade,
      DateTagsAdded;
    CatalogRuns.AggregateTags(db);
    HeldBySame(db, db, u);
    LateRowsMade(env, db, db, u, names, ids);
    NewRowsAreMade(env, db.tags, u, list, ids);
    CreateAllAdds(env, db.tags, u, list, ids, dates);
  }

  lemma DateTagsMade(env: Env, db: Db, u: UserId, more: map<Id, Tag>, made: seq<Id>, names: seq<string>,
                     p: DateTags.Period)
    requires CategoriesOk(db.users, db.categories) && HasKind(db.categories, u, Date) && !E2ee(db, u)
    requires PeriodOk(p) && NamesOf(names, p)
    requires var dates := CategoryOfKind(db, u, Date);
             && RowsMade(env, more, u, dates, names, made) && DateTagsAdded(db.tags, more, dates)
             && forall t | t in more && t !in db.tags :: t in made
    ensures DatesMade(env, db, more, u, p) && forall t :: t in made <==> NamesIt(env, db, more, u, p, t)
  {
    hide CategoriesOk, TagNamesUnique, PeriodOk, NamesIt, NamedRow, NamesADay, NamesOf, DateRow, Bears, HasKind, E2ee,
      HasDateTag;
    var dates := CategoryOfKind(db, u, Date);
    forall t
      ensures t in made <==> NamesIt(env, db, more, u, p, t)
    {
      DateRowsAreNamed(env, more, u, dates, p, names, t);
      NamesItIsNamed(env, db, more, u, p, t);
    }
    forall name | NamesADay(name, p)
      ensures HasDateTag(env, db, more, u, p, name)
    {
      EachNameHasARow(env, db, more, u, p, names, name);
    }
  }

  lemma ServerTagsMade(env: Env, db: Db, u: UserId, names: seq<string>, ids: seq<Id>, p: DateTags.Period)
    requires Aggregate(db) && HasKind(db.categories, u, Date) && !E2ee(db, u)
    requires |ids| == |names| && NewTagIds(db, ids) && PeriodOk(p) && NamesOf(names, p)
    ensures var (more, made) := CreateAll(env, db.tags, u, BuildDateTags(env, db, u, names), ids);
            DatesMade(env, db, more, u, p) && forall t :: t in made <==> NamesIt(env, db, more, u, p, t)
  {
    hide Aggregate, PeriodOk, NamesOf, CategoriesOk, RowsMade, DateTagsAdded, BuildDateTags, CreateAll, HasKind,
      NewTagIds, DatesMade, NamesIt, E2ee;
    UpsertsMade(env, db, u, names, ids);
    AggregateCategories(db);
    var (more, made) := CreateAll(env, db.tags, u, BuildDateTags(env, db, u, names), ids);
    DateTagsMade(env, db, u, more, made, names, p);
  }

  // The tags a write leaves and the ids it settles on, in either mode
  lemma WriteTags(env: Env, db: Db, u: UserId, names: seq<string>, ids: seq<Id>, p: DateTags.Period)
    requires Aggregate(db) && HasKind(db.categories, u, Date)
    requires |ids| == |names| && NewTagIds(db, ids) && PeriodOk(p) && NamesOf(names, p)
    ensures var list := DateTagsFor(env, db, u, names);
            var (more, made) := CreateAll(env, db.tags, u, list, ids[..|list|]);
            DatesMade(env, db, more, u, p) && forall t :: t in made <==> NamesIt(env, db, more, u, p, t)
  {
    if E2ee(db, u) {
      hide Aggregate, PeriodOk, NamesOf, HasKind, NewTagIds, BuildDateTags;
    } else {
      hide Aggregate, PeriodOk, NamesOf, BuildDateTags, CreateAll, HasKind, NewTagIds, DatesMade, NamesIt;
      assert ids[..|names|] == ids;
      ServerTagsMade(env, db, u, names, ids, p);
    }
  }

  lemma DatesMadeStand(env: Env, db: Db, more: map<Id, Tag>, u: UserId, p: DateTags.Period, clientTags: seq<Id>,
                       made: seq<Id>)
    requires DatesMade(env, db, more, u, p) && forall t :: t in made <==> NamesIt(env, db, more, u, p, t)
    requires forall t | t in clientTags :: t in db.tags
    ensures forall t | t in clientTags + made :: t in more
  {
    hide NamesADay;
  }

  lemma WrittenIs(env: Env, db: Db, u: UserId, e: Id, event: Event, req: EventRequest, more: map<Id, Tag>,
                  made: seq<Id>)
    requires var p := DateTags.Normalised(req.period);
             DatesMade(env, db, more, u, p) && forall t :: t in made <==> NamesIt(env, db, more, u, p, t)
    requires EventIs(env, db, u, event, req, event.clientId)
    ensures EventWritten(env, db,
                db.(tags := more, events := db.events[e := event],
                links := (set l | l in db.links && l.event != e) + LinksTo(e, u, req.tags + made)),
                u, e, req, event.clientId)
  {
    hide DatesMade, NamesIt, EventIs, DateTags.Normalised;
    var linked := req.tags + made;
    assert forall l :: l in LinksTo(e, u, linked) <==> l.event == e && l.user == u && l.tag in linked;
    hide LinksTo;
  }

  lemma WriteDoes(env: Env, db: Db, u: UserId, e: Id, event: Event, req: EventRequest, names: seq<string>,
                  ids: seq<Id>)
    requires Aggregate(db) && HasKind(db.categories, u, Date) && Asked(db, u, req)
    requires EventIs(env, db, u, event, req, event.clientId)
    requires |ids| == |names| && NewTagIds(db, ids) && NamesOf(names, DateTags.Normalised(req.period))
    ensures var list := DateTagsFor(env, db, u, names);
            var (next, outcome) := WriteEvent(env, db, u, e, event, req.tags, list, ids[..|list|]);
            outcome == Done(e) && EventWritten(env, db, next, u, e, req, event.clientId)
  {
    var p := DateTags.Normalised(req.period);
    NormalisedIsOk(req.period);
    hide Aggregate, PeriodOk, NamesOf, DatesMade, NamesIt, HasKind, NewTagIds, DateTagsFor, CreateAll, EventIs,
      DateTags.Normalised, EventWritten, LinksTo, OwnsCategory;
    WriteTags(env, db, u, names, ids, p);
    var list := DateTagsFor(env, db, u, names);
    var (more, made) := CreateAll(env, db.tags, u, list, ids[..|list|]);
    DatesMadeStand(env, db, more, u, p, req.tags, made);
    WrittenIs(env, db, u, e, event, req, more, made);
  }

  lemma AskedIsAccepted(db: Db, u: UserId, req: EventRequest)
    ensures Asked(db, u, req) <==> EventAccepted(db, u, req)
  {
    hide IsBlob, DateTags.PeriodAccepted;
  }

  lemma DescriptionIsSaid(env: Env, db: Db, u: UserId, req: EventRequest, clientId: Option<string>)
    requires Sound(env.cipher)
    ensures EventIs(env, db, u,
                Event(u, StoredDescription(env, db, u, req.description), DateTags.Normalised(req.period), clientId),
                req, clientId)
  {
    EncSays(env, u, req.description);
    hide SaysName;
  }

  // The write of an update: refused for a request that may not be stored, not found for an
  // event not the user's; else the event is as asked, with the tags asked for and its date
  // tags, it keeps its client id, and nothing else changes
  lemma UpdateEventDoes(env: Env, db: Db, u: UserId, e: Id, req: EventRequest, names: seq<string>, ids: seq<Id>)
    requires Sound(env.cipher) && Aggregate(db) && u in db.users && |ids| == |names| && NewTagIds(db, ids)
    requires DateTags.PeriodAccepted(req.period) ==> NamesOf(names, DateTags.Normalised(req.period))
    ensures HasKind(db.categories, u, Date)
    ensures var (next, outcome) := CatalogEvents.UpdateEvent(env, db, u, e, req, names, ids);
            var mine := e in db.events && db.events[e].user == u;
            && outcome == (if !Asked(db, u, req) then BadRequest else if !mine then NotFound else Done(e))
            && (outcome.Done? ==> EventWritten(env, db, next, u, e, req, db.events[e].clientId))
            && (!outcome.Done? ==> next == db)
  {
    UserHasDates(db, u);
    AskedIsAccepted(db, u, req);
    assert Asked(db, u, req) ==> DateTags.PeriodAccepted(req.period);
    hide Aggregate, Asked, EventAccepted, HasKind, NewTagIds, DateTagsFor, WriteEvent, EventWritten, EventIs, NamesOf,
      StoredDescription, Sound, DateTags.Normalised, DateTags.PeriodAccepted;
    if Asked(db, u, req) && e in db.events && db.events[e].user == u {
      var event := db.events[e].(description := StoredDescription(env, db, u, req.description),
        period := DateTags.Normalised(req.period));
      DescriptionIsSaid(env, db, u, req, db.events[e].clientId);
      WriteDoes(env, db, u, e, event, req, names, ids);
    }
  }

  lemma CreateIs(env: Env, db: Db, u: UserId, e: Id, req: EventRequest, names: seq<string>, ids: seq<Id>)
    requires HasKind(db.categories, u, Date) && |ids| == |names|
    ensures var r := CatalogEvents.CreateEvent(env, db, u, e, req, names, ids);
            var list := DateTagsFor(env, db, u, names);
            if exists f :: Sent(db, u, req, f) then r.1.Replayed? && Sent(db, u, req, r.1.id) && r.0 == db
            else if !EventAccepted(db, u, req) then r == (db, BadRequest)
            else r == WriteEvent(env, db, u, e, EventOf(env, db, u, req), req.tags, list, ids[..|list|])
  {
    assert forall f :: EventCreated(db, u, req.clientId, f) <==> Sent(db, u, req, f);
    hide EventCreated, Sent, EventAccepted, HasKind, DateTagsFor, WriteEvent, StoredDescription, DateTags.Normalised;
    if f :| Sent(db, u, req, f) {
      assert EventCreated(db, u, req.clientId, f);
    }
  }

  // The write of a create: answered by the user's event that has the client id, if one has;
  // refused for a request that may not be stored; else the new event is as asked
  lemma CreateEventDoes(env: Env, db: Db, u: UserId, e: Id, req: EventRequest, names: seq<string>, ids: seq<Id>)
    requires Sound(env.cipher) && Aggregate(db) && u in db.users && e !in db.events
    requires |ids| == |names| && NewTagIds(db, ids)
    requires DateTags.PeriodAccepted(req.period) ==> NamesOf(names, DateTags.Normalised(req.period))
    ensures HasKind(db.categories, u, Date)
    ensures var (next, outcome) := CatalogEvents.CreateEvent(env, db, u, e, req, names, ids);
            && (if exists f :: Sent(db, u, req, f) then outcome.Replayed? && Sent(db, u, req, outcome.id)
                else outcome == if Asked(db, u, req) then Done(e) else BadRequest)
            && (outcome.Done? ==> EventWritten(env, db, next, u, e, req, req.clientId))
            && (!outcome.Done? ==> next == db)
  {
    UserHasDates(db, u);
    AskedIsAccepted(db, u, req);
    assert Asked(db, u, req) ==> DateTags.PeriodAccepted(req.period);
    hide Aggregate, Asked, EventAccepted, HasKind, NewTagIds, DateTagsFor, WriteEvent, EventWritten, EventIs, NamesOf,
      StoredDescription, Sound, DateTags.Normalised, DateTags.PeriodAccepted, Sent, CatalogEvents.CreateEvent;
    CreateIs(env, db, u, e, req, names, ids);
    if Asked(db, u, req) {
      DescriptionIsSaid(env, db, u, req, req.clientId);
      WriteDoes(env, db, u, e, EventOf(env, db, u, req), req, names, ids);
    }
  }

  // An event not the user's is not found; else it goes with its links, and nothing else does
  lemma DeleteEventDoes(db: Db, u: UserId, e: Id)
    ensures var (next, outcome) := CatalogEvents.DeleteEvent(db, u, e);
            var mine := e in db.events && db.events[e].user == u;
            && outcome == (if mine then Done(e) else NotFound)
            && next == db.(events := next.events, links := next.links)
            && (forall f :: f in next.events <==> f in db.events && !(mine && f == e))
            && (forall f | f in next.events :: next.events[f] == db.events[f])
            && (forall l :: l in next.links <==> l in db.links && !(mine && l.event == e))
  {
  }
}
