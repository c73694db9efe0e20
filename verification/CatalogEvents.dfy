/** Events: their links, and the date tags the server derives from their periods. */
module CatalogEvents {
  import opened Collections
  import opened Options
  import opened Encryption
  import opened Catalog
  import opened CatalogInvariant
  import DateTags

  datatype EventRequest = EventRequest(description: string, period: DateTags.Period, tags: seq<Id>,
      clientId: Option<string>)

  // A date tag as the lookup before the write left it: found, or to be made
  datatype DateTag = Known(id: Id) | Missing(category: Id, name: string)

  predicate Bears(tags: map<Id, Tag>, category: Id, name: string, t: Id) {
    t in tags && tags[t].key.category == category && tags[t].key.name == name
  }

  ghost function FindTag(tags: map<Id, Tag>, category: Id, name: string): (found: Option<Id>)
    ensures found.Some? ==> Bears(tags, category, name, found.value)
    ensures found.None? ==> forall t :: !Bears(tags, category, name, t)
  {
    if exists t :: Bears(tags, category, name, t) then Some(var t :| Bears(tags, category, name, t); t) else None
  }

  ghost function LookUp(env: Env, db: Db, u: UserId, dates: Id, name: string): DateTag {
    var found := FindTag(db.tags, dates, env.cipher.enc(u, name));
    if found.Some? then Known(found.value) else Missing(dates, name)
  }

  ghost function BuildDateTags(env: Env, db: Db, u: UserId, names: seq<string>): (list: seq<DateTag>)
    requires HasKind(db.categories, u, Date)
    ensures |list| == |names|
  {
    seq(|names|, i requires 0 <= i < |names| => LookUp(env, db, u, CategoryOfKind(db, u, Date), names[i]))
  }

  // Insert the tag, or take the row that has its name already
  ghost function Upsert(env: Env, tags: map<Id, Tag>, u: UserId, tag: DateTag, id: Id): (map<Id, Tag>, Id) {
    match tag
    case Known(known) => (tags, known)
    case Missing(category, name) =>
      var found := FindTag(tags, category, env.cipher.enc(u, name));
      if found.Some? then (tags, found.value)
      else (tags[id := Tag(Key(category, env.cipher.enc(u, name), None), None)], id)
  }

  ghost function CreateAll(env: Env, tags: map<Id, Tag>, u: UserId, list: seq<DateTag>,
                           ids: seq<Id>): (r: (map<Id, Tag>, seq<Id>))
    requires |ids| == |list|
    ensures |r.1| == |list|
    decreases |list|
  {
    if list == [] then (tags, [])
    else
      var n := |list| - 1;
      var (before, made) := CreateAll(env, tags, u, list[..n], ids[..n]);
      var (after, last) := Upsert(env, before, u, list[n], ids[n]);
      (after, made + [last])
  }

  function LinksTo(event: Id, u: UserId, tags: seq<Id>): set<Link> {
    set t | t in tags :: Link(t, event, u)
  }

  function StoredDescription(env: Env, db: Db, u: UserId, description: string): string {
    if E2ee(db, u) then description else env.cipher.enc(u, description)
  }

  ghost predicate EventCreated(db: Db, u: UserId, clientId: Option<string>, e: Id) {
    e in db.events && db.events[e].user == u && clientId.Some? && db.events[e].clientId == clientId
  }

  // What both writes of an event come to: its date tags, its row and its links, or nothing
  // when a tag it links is gone
  ghost function WriteEvent(env: Env, db: Db, u: UserId, e: Id, event: Event, clientTags: seq<Id>, list: seq<DateTag>,
                            ids: seq<Id>): (r: (Db, Outcome))
    requires |ids| == |list|
    ensures r.1 == Done(e) || r == (db, Failed)
  {
    var (tags, made) := CreateAll(env, db.tags, u, list, ids);
    if exists t | t in clientTags + made :: t !in tags then (db, Failed)
    else
      (db.(tags := tags, events := db.events[e := event],
           links := (set l | l in db.links && l.event != e) + LinksTo(e, u, clientTags + made)), Done(e))
  }

  // The transaction of a create: the insert may meet a client id stored meanwhile
  ghost function InsertEvent(env: Env, db: Db, u: UserId, e: Id, event: Event, clientTags: seq<Id>,
                             list: seq<DateTag>, ids: seq<Id>): (Db, Outcome)
    requires |ids| == |list|
  {
    if exists f :: EventCreated(db, u, event.clientId, f) then (db, DuplicateClientId)
    else WriteEvent(env, db, u, e, event, clientTags, list, ids)
  }

  // The transaction of an update: the event may be gone meanwhile, and keeps its client id
  ghost function RewriteEvent(env: Env, db: Db, u: UserId, e: Id, description: string, period: DateTags.Period,
                              clientTags: seq<Id>, list: seq<DateTag>, ids: seq<Id>): (Db, Outcome)
    requires |ids| == |list|
  {
    if e !in db.events || db.events[e].user != u then (db, NotFound)
    else
      WriteEvent(env, db, u, e, db.events[e].(description := description, period := period), clientTags, list, ids)
  }

  // The checks before an event is written, in their order
  predicate EventAccepted(db: Db, u: UserId, req: EventRequest) {
    && DateTags.PeriodAccepted(req.period)
    && (forall t | t in req.tags :: OwnsTag(db.categories, db.tags, u, t))
    && (E2ee(db, u) ==> req.description == "" || IsBlob(req.description))
  }

  // E2EE clients manage their own date tags
  ghost function DateTagsFor(env: Env, db: Db, u: UserId, names: seq<string>): seq<DateTag>
    requires HasKind(db.categories, u, Date)
  {
    if E2ee(db, u) then [] else BuildDateTags(env, db, u, names)
  }

  // The names the period of a request implies
  ghost predicate NamesOf(names: seq<string>, period: DateTags.Period) {
    Distinct(names) && forall name :: name in names <==> DateTags.NamesPeriod(name, period)
  }

  ghost predicate NewTagIds(db: Db, ids: seq<Id>) {
    && (forall i | 0 <= i < |ids| :: ids[i] !in db.tags)
    && (forall i, j | 0 <= i < j < |ids| :: ids[i] != ids[j])
  }

  ghost function CreateEvent(env: Env, db: Db, u: UserId, e: Id, req: EventRequest, names: seq<string>,
                             ids: seq<Id>): (Db, Outcome)
    requires HasKind(db.categories, u, Date) && |ids| == |names|
  {
    if exists f :: EventCreated(db, u, req.clientId, f) then
      (db, Replayed(var f :| EventCreated(db, u, req.clientId, f); f))
    else if !EventAccepted(db, u, req) then (db, BadRequest)
    else
      var event := Event(u, StoredDescription(env, db, u, req.description), DateTags.Normalised(req.period),
          req.clientId);
      var list := DateTagsFor(env, db, u, names);
      InsertEvent(env, db, u, e, event, req.tags, list, ids[..|list|])
  }

  ghost function UpdateEvent(env: Env, db: Db, u: UserId, e: Id, req: EventRequest, names: seq<string>,
                             ids: seq<Id>): (Db, Outcome)
    requires HasKind(db.categories, u, Date) && |ids| == |names|
  {
    if !EventAccepted(db, u, req) then (db, BadRequest)
    else
      var list := DateTagsFor(env, db, u, names);
      RewriteEvent(env, db, u, e, StoredDescription(env, db, u, req.description), DateTags.Normalised(req.period),
          req.tags, list, ids[..|list|])
  }

  function DeleteEvent(db: Db, u: UserId, e: Id): (Db, Outcome) {
    if e !in db.events || db.events[e].user != u then (db, NotFound) else (DeleteEvents(db, {e}), Done(e))
  }

  // ---- What the upserts do to the tags ----

  // Only rows of the date category are added, none is touched
  ghost predicate DateTagsAdded(tags: map<Id, Tag>, more: map<Id, Tag>, dates: Id) {
    && (forall t | t in tags :: t in more && more[t] == tags[t])
    && (forall t | t in more && t !in tags ::
        more[t].key.category == dates && more[t].key.index.None? && more[t].parent.None?)
  }

  ghost predicate InDates(list: seq<DateTag>, dates: Id) {
    forall tag | tag in list && tag.Missing? :: tag.category == dates
  }

  // The row an upsert settles on
  ghost predicate Settles(env: Env, tags: map<Id, Tag>, u: UserId, tag: DateTag, id: Id) {
    match tag
    case Known(known) => id == known
    case Missing(category, name) => Bears(tags, category, env.cipher.enc(u, name), id)
  }

  lemma UpsertAdds(env: Env, tags: map<Id, Tag>, u: UserId, tag: DateTag, id: Id, dates: Id)
    requires TagNamesUnique(tags) && id !in tags && (tag.Missing? ==> tag.category == dates)
    ensures var (more, t) := Upsert(env, tags, u, tag, id);
            && DateTagsAdded(tags, more, dates) && TagNamesUnique(more) && Settles(env, more, u, tag, t)
            && more.Keys <= tags.Keys + {id}
  {
    if tag.Missing? {
      var name := env.cipher.enc(u, tag.name);
      if FindTag(tags, tag.category, name).None? {
        forall t | t in tags
          ensures !Clash(tags[t].key, Key(tag.category, name, None))
        {
          assert !Bears(tags, tag.category, name, t);
        }
      }
    }
  }

  lemma {:induction false} CreateAllAdds(env: Env, tags: map<Id, Tag>, u: UserId, list: seq<DateTag>, ids: seq<Id>,
                                         dates: Id)
    requires TagNamesUnique(tags) && |ids| == |list| && InDates(list, dates)
    requires forall i | 0 <= i < |ids| :: ids[i] !in tags
    requires forall i, j | 0 <= i < j < |ids| :: ids[i] != ids[j]
    ensures var (more, made) := CreateAll(env, tags, u, list, ids);
            && DateTagsAdded(tags, more, dates) && TagNamesUnique(more)
            && (forall i | 0 <= i < |list| :: Settles(env, more, u, list[i], made[i]))
            && (forall t | t in more :: t in tags || t in ids)
    decreases |list|
  {
    if list != [] {
      var n := |list| - 1;
      CreateAllAdds(env, tags, u, list[..n], ids[..n], dates);
      var (before, made) := CreateAll(env, tags, u, list[..n], ids[..n]);
      assert ids[n] !in before;
      assert list[n] in list;
      UpsertAdds(env, before, u, list[n], ids[n], dates);
      hide TagNamesUnique, Upsert;
    }
  }

  // ---- The aggregate survives ----

  lemma AddedKeeps(db: Db, more: map<Id, Tag>, dates: Id)
    requires TagsOk(db.categories, db.tags) && MembersOk(db.tags, db.groups, db.members)
    requires LinksOk(db.categories, db.tags, db.events, db.links)
    requires DateTagsAdded(db.tags, more, dates) && dates in db.categories
    ensures TagsOk(db.categories, more) && MembersOk(more, db.groups, db.members)
    ensures LinksOk(db.categories, more, db.events, db.links)
  {
    forall t | t in more
      ensures ParentOk(more, t)
    {
      if t in db.tags {
        assert ParentOk(db.tags, t);
      }
    }
  }

  // No other event of the user has the client id
  ghost predicate ClientIdFree(db: Db, u: UserId, e: Id, clientId: Option<string>) {
    clientId.Some? ==> forall f | f in db.events && f != e && db.events[f].user == u ::
        db.events[f].clientId != clientId
  }

  lemma PutEventKeeps(db: Db, u: UserId, e: Id, event: Event, linked: seq<Id>)
    requires Aggregate(db) && event.user == u && u in db.users && PeriodOk(event.period)
    requires e in db.events ==> db.events[e].user == u
    requires ClientIdFree(db, u, e, event.clientId)
    requires forall t | t in linked :: OwnsTag(db.categories, db.tags, u, t)
    ensures Aggregate(db.(events := db.events[e := event],
                          links := (set l | l in db.links && l.event != e) + LinksTo(e, u, linked)))
  {
    hide CategoriesOk, DefaultsOk, TagsOk, TagNamesUnique, GroupsOk, KeysUnique, MembersOk, PeriodOk, OwnsTag;
  }

  lemma WrittenTagsOwned(env: Env, db: Db, u: UserId, more: map<Id, Tag>, clientTags: seq<Id>, list: seq<DateTag>,
                         made: seq<Id>, dates: Id)
    requires DateTagsAdded(db.tags, more, dates) && OwnsCategory(db, u, dates)
    requires |made| == |list| && forall i | 0 <= i < |list| :: Settles(env, more, u, list[i], made[i])
    requires forall t | t in clientTags + made :: t in more
    requires forall t | t in clientTags && t in db.tags :: OwnsTag(db.categories, db.tags, u, t)
    requires forall t | Known(t) in list && t in db.tags :: OwnsTag(db.categories, db.tags, u, t)
    requires InDates(list, dates)
    ensures forall t | t in clientTags + made :: OwnsTag(db.categories, more, u, t)
  {
    forall t | t in clientTags + made
      ensures OwnsTag(db.categories, more, u, t)
    {
      if t in db.tags && t !in clientTags {
        var i :| 0 <= i < |made| && made[i] == t;
        assert Settles(env, more, u, list[i], t) && list[i] in list;
      }
    }
  }

  // Whatever else was written since the tags were looked up, as long as the client's tags
  // and the known date tags are the user's own
  lemma WriteEventKeeps(env: Env, db: Db, u: UserId, e: Id, event: Event, clientTags: seq<Id>, list: seq<DateTag>,
                        ids: seq<Id>, dates: Id)
    requires Aggregate(db) && |ids| == |list| && InDates(list, dates) && NewTagIds(db, ids)
    requires OwnsCategory(db, u, dates) && event.user == u && u in db.users && PeriodOk(event.period)
    requires e in db.events ==> db.events[e].user == u
    requires ClientIdFree(db, u, e, event.clientId)
    requires forall t | t in clientTags && t in db.tags :: OwnsTag(db.categories, db.tags, u, t)
    requires forall t | Known(t) in list && t in db.tags :: OwnsTag(db.categories, db.tags, u, t)
    requires forall t | (t in clientTags || Known(t) in list) && t !in db.tags :: t !in ids
    ensures Aggregate(WriteEvent(env, db, u, e, event, clientTags, list, ids).0)
  {
    var (more, made) := CreateAll(env, db.tags, u, list, ids);
    CreateAllAdds(env, db.tags, u, list, ids, dates);
    hide CategoriesOk, DefaultsOk, TagsOk, TagNamesUnique, GroupsOk, KeysUnique, MembersOk, EventsOk, LinksOk,
      PeriodOk, CreateAll, OwnsTag, LinksTo;
    if forall t | t in clientTags + made :: t in more {
      AddedKeeps(db, more, dates);
      WrittenTagsOwned(env, db, u, more, clientTags, list, made, dates);
      PutEventKeeps(db.(tags := more), u, e, event, clientTags + made);
    }
  }

  lemma LookedUpAreOwned(env: Env, db: Db, u: UserId, names: seq<string>)
    requires HasKind(db.categories, u, Date)
    ensures var list := DateTagsFor(env, db, u, names);
            InDates(list, CategoryOfKind(db, u, Date)) && forall t | Known(t) in list ::
                OwnsTag(db.categories, db.tags, u, t)
  {
  }

  lemma NormalisedIsOk(p: DateTags.Period)
    requires DateTags.PeriodAccepted(p)
    ensures PeriodOk(DateTags.Normalised(p))
  {
  }

  lemma PrefixOfNewIds(db: Db, ids: seq<Id>, n: nat)
    requires NewTagIds(db, ids) && n <= |ids|
    ensures NewTagIds(db, ids[..n])
  {
  }

  lemma AcceptedTagsAreOwned(db: Db, u: UserId, req: EventRequest, list: seq<DateTag>)
    requires EventAccepted(db, u, req) && forall t | Known(t) in list :: OwnsTag(db.categories, db.tags, u, t)
    ensures forall t | t in req.tags :: t in db.tags && OwnsTag(db.categories, db.tags, u, t)
    ensures forall t | Known(t) in list :: t in db.tags
    ensures DateTags.PeriodAccepted(req.period)
  {
  }

  lemma AcceptedWriteKeeps(env: Env, db: Db, u: UserId, e: Id, event: Event, req: EventRequest, names: seq<string>,
                           ids: seq<Id>)
    requires Aggregate(db) && u in db.users && |ids| == |names| && NewTagIds(db, ids)
    requires EventAccepted(db, u, req) && event.user == u && event.period == DateTags.Normalised(req.period)
    requires e in db.events ==> db.events[e].user == u
    requires ClientIdFree(db, u, e, event.clientId)
    ensures HasKind(db.categories, u, Date)
    ensures var list := DateTagsFor(env, db, u, names);
            Aggregate(WriteEvent(env, db, u, e, event, req.tags, list, ids[..|list|]).0)
  {
    UserHasDates(db, u);
    var list := DateTagsFor(env, db, u, names);
    hide Aggregate, PeriodOk, WriteEvent, NewTagIds, InDates, EventAccepted, ClientIdFree, DateTagsFor, OwnsTag,
      HasKind;
    LookedUpAreOwned(env, db, u, names);
    AcceptedTagsAreOwned(db, u, req, list);
    NormalisedIsOk(req.period);
    PrefixOfNewIds(db, ids, |list|);
    WriteEventKeeps(env, db, u, e, event, req.tags, list, ids[..|list|], CategoryOfKind(db, u, Date));
  }

  lemma NotCreatedIsFree(db: Db, u: UserId, e: Id, clientId: Option<string>)
    requires !exists f :: EventCreated(db, u, clientId, f)
    ensures ClientIdFree(db, u, e, clientId)
  {
    forall f | f in db.events && db.events[f].user == u && clientId.Some?
      ensures db.events[f].clientId != clientId
    {
      assert !EventCreated(db, u, clientId, f);
    }
  }

  lemma AcceptedInsertKeeps(env: Env, db: Db, u: UserId, e: Id, event: Event, req: EventRequest, names: seq<string>,
                            ids: seq<Id>)
    requires Aggregate(db) && u in db.users && |ids| == |names| && NewTagIds(db, ids) && e !in db.events
    requires EventAccepted(db, u, req) && event.user == u && event.period == DateTags.Normalised(req.period)
    ensures HasKind(db.categories, u, Date)
    ensures var list := DateTagsFor(env, db, u, names);
            Aggregate(InsertEvent(env, db, u, e, event, req.tags, list, ids[..|list|]).0)
  {
    hide Aggregate, EventAccepted, WriteEvent, EventCreated, ClientIdFree, NewTagIds, HasKind, DateTagsFor;
    UserHasDates(db, u);
    if !(exists f :: EventCreated(db, u, event.clientId, f)) {
      NotCreatedIsFree(db, u, e, event.clientId);
      AcceptedWriteKeeps(env, db, u, e, event, req, names, ids);
    }
  }

  lemma CreateEventKeeps(env: Env, db: Db, u: UserId, e: Id, req: EventRequest, names: seq<string>, ids: seq<Id>)
    requires Aggregate(db) && u in db.users && |ids| == |names| && NewTagIds(db, ids) && e !in db.events
    ensures HasKind(db.categories, u, Date)
    ensures Aggregate(CreateEvent(env, db, u, e, req, names, ids).0)
  {
    hide Aggregate, EventAccepted, InsertEvent, StoredDescription, EventCreated, NewTagIds, HasKind, DateTagsFor;
    UserHasDates(db, u);
    if EventAccepted(db, u, req) {
      var event := Event(u, StoredDescription(env, db, u, req.description), DateTags.Normalised(req.period),
          req.clientId);
      AcceptedInsertKeeps(env, db, u, e, event, req, names, ids);
    }
  }

  lemma OwnClientIdIsFree(db: Db, u: UserId, e: Id)
    requires EventsOk(db.users, db.events) && e in db.events && db.events[e].user == u
    ensures ClientIdFree(db, u, e, db.events[e].clientId)
  {
    hide PeriodOk;
  }

  lemma AcceptedRewriteKeeps(env: Env, db: Db, u: UserId, e: Id, description: string, req: EventRequest,
                             names: seq<string>, ids: seq<Id>)
    requires Aggregate(db) && u in db.users && |ids| == |names| && NewTagIds(db, ids) && EventAccepted(db, u, req)
    ensures HasKind(db.categories, u, Date)
    ensures var list := DateTagsFor(env, db, u, names);
            Aggregate(RewriteEvent(env, db, u, e, description, DateTags.Normalised(req.period), req.tags, list,
                          ids[..|list|]).0)
  {
    UserHasDates(db, u);
    if e in db.events && db.events[e].user == u {
      OwnClientIdIsFree(db, u, e);
      hide Aggregate, EventAccepted, WriteEvent, ClientIdFree, NewTagIds, HasKind, DateTagsFor;
      AcceptedWriteKeeps(env, db, u, e,
          db.events[e].(description := description, period := DateTags.Normalised(req.period)), req, names, ids);
    }
  }

  lemma UpdateEventKeeps(env: Env, db: Db, u: UserId, e: Id, req: EventRequest, names: seq<string>, ids: seq<Id>)
    requires Aggregate(db) && u in db.users && |ids| == |names| && NewTagIds(db, ids)
    ensures HasKind(db.categories, u, Date)
    ensures Aggregate(UpdateEvent(env, db, u, e, req, names, ids).0)
  {
    hide Aggregate, EventAccepted, RewriteEvent, StoredDescription, NewTagIds, HasKind, DateTagsFor;
    UserHasDates(db, u);
    if EventAccepted(db, u, req) {
      AcceptedRewriteKeeps(env, db, u, e, StoredDescription(env, db, u, req.description), req, names, ids);
    }
  }

  lemma DeleteEventKeeps(db: Db, u: UserId, e: Id)
    requires Aggregate(db)
    ensures Aggregate(DeleteEvent(db, u, e).0)
  {
    hide Aggregate;
    DeleteEventsKeeps(db, {e});
  }

  // ---- What an event is linked to ----

  ghost predicate Linked(db: Db, e: Id, t: Id) {
    exists u :: Link(t, e, u) in db.links
  }

  // While a user without E2EE has his date category and its rows untouched, others may be added
  ghost predicate DatesHeld(db: Db, later: Db, u: UserId) {
    && !E2ee(db, u) && !E2ee(later, u)
    && (forall c | IsKind(db, u, Date, c) :: IsKind(later, u, Date, c))
    && (forall t, c | t in db.tags && IsKind(db, u, Date, c) && db.tags[t].key.category == c ::
          t in later.tags && later.tags[t] == db.tags[t])
  }

  lemma LookUpsSettle(env: Env, db: Db, later: Db, u: UserId, names: seq<string>, more: map<Id, Tag>, made: seq<Id>)
    requires HasKind(db.categories, u, Date) && DatesHeld(db, later, u)
    requires |made| == |names|
    requires var dates := CategoryOfKind(db, u, Date);
             var list := BuildDateTags(env, db, u, names);
             && DateTagsAdded(later.tags, more, dates)
             && forall i | 0 <= i < |names| :: Settles(env, more, u, list[i], made[i])
    ensures forall i | 0 <= i < |names| ::
            Bears(more, CategoryOfKind(db, u, Date), env.cipher.enc(u, names[i]), made[i])
  {
    var dates := CategoryOfKind(db, u, Date);
    var list := BuildDateTags(env, db, u, names);
    forall i | 0 <= i < |names|
      ensures Bears(more, dates, env.cipher.enc(u, names[i]), made[i])
    {
      assert Settles(env, more, u, list[i], made[i]);
      if list[i].Known? {
        assert Bears(db.tags, dates, env.cipher.enc(u, names[i]), made[i]);
        assert later.tags[made[i]] == db.tags[made[i]];
      }
    }
  }

  lemma OneRowPerName(tags: map<Id, Tag>, category: Id, name: string, s: Id, t: Id)
    requires TagNamesUnique(tags) && Bears(tags, category, name, s) && Bears(tags, category, name, t)
    ensures s == t
  {
  }

  ghost predicate DateRow(env: Env, tags: map<Id, Tag>, u: UserId, dates: Id, names: seq<string>, t: Id) {
    exists i | 0 <= i < |names| :: Bears(tags, dates, env.cipher.enc(u, names[i]), t)
  }

  lemma MadeAreDateRows(env: Env, tags: map<Id, Tag>, u: UserId, dates: Id, names: seq<string>, made: seq<Id>, t: Id)
    requires TagNamesUnique(tags) && |made| == |names|
    requires forall i | 0 <= i < |names| :: Bears(tags, dates, env.cipher.enc(u, names[i]), made[i])
    ensures t in made <==> DateRow(env, tags, u, dates, names, t)
  {
    if DateRow(env, tags, u, dates, names, t) {
      var i :| 0 <= i < |names| && Bears(tags, dates, env.cipher.enc(u, names[i]), t);
      OneRowPerName(tags, dates, env.cipher.enc(u, names[i]), made[i], t);
    }
    if t in made {
      var i :| 0 <= i < |made| && made[i] == t;
      assert Bears(tags, dates, env.cipher.enc(u, names[i]), t);
    }
  }

  lemma LinksOfWritten(db: Db, e: Id, u: UserId, linked: seq<Id>, t: Id)
    ensures Linked(db.(links := (set l | l in db.links && l.event != e) + LinksTo(e, u, linked)), e, t) <==> t in linked
  {
    var next := db.(links := (set l | l in db.links && l.event != e) + LinksTo(e, u, linked));
    if t in linked {
      assert Link(t, e, u) in next.links;
    }
    if Linked(next, e, t) {
      var v :| Link(t, e, v) in next.links;
      assert Link(t, e, v) in LinksTo(e, u, linked);
    }
  }

  // Every date name has its one row, and the ids made are those rows
  ghost predicate RowsMade(env: Env, tags: map<Id, Tag>, u: UserId, dates: Id, names: seq<string>, made: seq<Id>) {
    && TagNamesUnique(tags)
    && (forall n | n in names :: exists t :: Bears(tags, dates, env.cipher.enc(u, n), t))
    && (forall t :: t in made <==> DateRow(env, tags, u, dates, names, t))
  }

  lemma LateRowsMade(env: Env, db: Db, later: Db, u: UserId, names: seq<string>, ids: seq<Id>)
    requires TagNamesUnique(later.tags) && DatesHeld(db, later, u)
    requires HasKind(db.categories, u, Date) && |ids| == |names| && NewTagIds(later, ids)
    ensures var (more, made) := CreateAll(env, later.tags, u, BuildDateTags(env, db, u, names), ids);
            RowsMade(env, more, u, CategoryOfKind(db, u, Date), names, made) && later.tags.Keys <= more.Keys
  {
    var dates := CategoryOfKind(db, u, Date);
    var list := BuildDateTags(env, db, u, names);
    assert InDates(list, dates);
    var (more, made) := CreateAll(env, later.tags, u, list, ids);
    CreateAllAdds(env, later.tags, u, list, ids, dates);
    LookUpsSettle(env, db, later, u, names, more, made);
    hide TagNamesUnique, BuildDateTags, CreateAll, DatesHeld, HasKind, Settles, IsKind, Bears;
    forall n | n in names
      ensures exists t :: Bears(more, dates, env.cipher.enc(u, n), t)
    {
      var i :| 0 <= i < |names| && names[i] == n;
      assert Bears(more, dates, env.cipher.enc(u, n), made[i]);
    }
    forall t
      ensures t in made <==> DateRow(env, more, u, dates, names, t)
    {
      MadeAreDateRows(env, more, u, dates, names, made, t);
    }
  }

  // The event is there, every date name has one row in the date category, and the event is
  // linked to exactly the client's tags and the rows of the names
  ghost predicate WrittenExactly(env: Env, db: Db, u: UserId, e: Id, event: Event, clientTags: seq<Id>,
                                 names: seq<string>, dates: Id) {
    && e in db.events && db.events[e] == event
    && TagNamesUnique(db.tags)
    && (forall n | n in names :: exists t :: Bears(db.tags, dates, env.cipher.enc(u, n), t))
    && (forall t :: Linked(db, e, t) <==> t in clientTags || DateRow(env, db.tags, u, dates, names, t))
  }

  predicate TagsStand(db: Db, clientTags: seq<Id>) {
    forall t | t in clientTags :: t in db.tags
  }

  lemma OnlyNewTagsAdded(env: Env, db: Db, later: Db, u: UserId, names: seq<string>, ids: seq<Id>)
    requires TagNamesUnique(later.tags) && HasKind(db.categories, u, Date) && |ids| == |names| && NewTagIds(later, ids)
    ensures var more := CreateAll(env, later.tags, u, BuildDateTags(env, db, u, names), ids).0;
            forall t | t in more :: t in later.tags || t in ids
  {
    var list := BuildDateTags(env, db, u, names);
    assert InDates(list, CategoryOfKind(db, u, Date));
    hide BuildDateTags, TagNamesUnique, CreateAll, HasKind;
    CreateAllAdds(env, later.tags, u, list, ids, CategoryOfKind(db, u, Date));
  }

  // Whatever was written between the lookup of the date tags and the write, tags, row and
  // links fail exactly for a client's tag that is gone, and then nothing is written
  lemma LateWriteLinksExactly(env: Env, db: Db, later: Db, u: UserId, e: Id, event: Event, clientTags: seq<Id>,
                              names: seq<string>, ids: seq<Id>)
    requires TagNamesUnique(later.tags) && DatesHeld(db, later, u)
    requires HasKind(db.categories, u, Date) && |ids| == |names| && NewTagIds(later, ids)
    requires forall t | t in clientTags :: t !in ids
    ensures var (next, outcome) :=
            WriteEvent(env, later, u, e, event, clientTags, BuildDateTags(env, db, u, names), ids);
            && (outcome == if TagsStand(later, clientTags) then Done(e) else Failed)
            && (outcome.Done? ==> WrittenExactly(env, next, u, e, event, clientTags, names,
                CategoryOfKind(db, u, Date)))
            && (!outcome.Done? ==> next == later)
  {
    var (more, made) := CreateAll(env, later.tags, u, BuildDateTags(env, db, u, names), ids);
    hide TagNamesUnique, BuildDateTags, CreateAll, DatesHeld, HasKind, LinksTo, NewTagIds, RowsMade, WrittenExactly;
    LateRowsMade(env, db, later, u, names, ids);
    OnlyNewTagsAdded(env, db, later, u, names, ids);
    MadeAreThere(env, more, u, CategoryOfKind(db, u, Date), names, made);
    WrittenRows(env, later, more, u, e, event, clientTags, names, made, CategoryOfKind(db, u, Date));
  }

  lemma MadeAreThere(env: Env, more: map<Id, Tag>, u: UserId, dates: Id, names: seq<string>, made: seq<Id>)
    requires RowsMade(env, more, u, dates, names, made)
    ensures forall t | t in made :: t in more
  {
    hide TagNamesUnique;
  }

  lemma WrittenRows(env: Env, db: Db, more: map<Id, Tag>, u: UserId, e: Id, event: Event, clientTags: seq<Id>,
                    names: seq<string>, made: seq<Id>, dates: Id)
    requires RowsMade(env, more, u, dates, names, made)
    ensures WrittenExactly(env,
                db.(tags := more, events := db.events[e := event],
                links := (set l | l in db.links && l.event != e) + LinksTo(e, u, clientTags + made)),
                u, e, event, clientTags, names, dates)
  {
    var mid := db.(tags := more, events := db.events[e := event]);
    var next := mid.(links := (set l | l in mid.links && l.event != e) + LinksTo(e, u, clientTags + made));
    forall t
      ensures Linked(next, e, t) <==> t in clientTags || t in made
    {
      LinksOfWritten(mid, e, u, clientTags + made, t);
    }
    hide TagNamesUnique, Linked, LinksTo, DateRow, Bears;
  }

  // The service has checked the client's tags, and no id is given out twice
  ghost predicate LookedUp(db: Db, later: Db, u: UserId, clientTags: seq<Id>, names: seq<string>, ids: seq<Id>) {
    && HasKind(db.categories, u, Date) && DatesHeld(db, later, u)
    && (forall t | t in clientTags :: OwnsTag(db.categories, db.tags, u, t))
    && |ids| == |names| && NewTagIds(db, ids) && NewTagIds(later, ids)
  }

  lemma CheckedTagsAreNotNew(db: Db, later: Db, u: UserId, clientTags: seq<Id>, names: seq<string>, ids: seq<Id>)
    requires LookedUp(db, later, u, clientTags, names, ids)
    ensures forall t | t in clientTags :: t !in ids
  {
  }

  // The create goes through exactly when the client's tags are still there and its client id
  // is still free
  lemma LateInsertLinksExactly(env: Env, db: Db, later: Db, u: UserId, e: Id, event: Event, clientTags: seq<Id>,
                               names: seq<string>, ids: seq<Id>)
    requires TagNamesUnique(later.tags) && LookedUp(db, later, u, clientTags, names, ids) && e !in later.events
    ensures var (next, outcome) :=
            InsertEvent(env, later, u, e, event, clientTags, BuildDateTags(env, db, u, names), ids);
            && (outcome.Done? <==> TagsStand(later, clientTags) && ClientIdFree(later, u, e, event.clientId))
            && (outcome.DuplicateClientId? <==> !ClientIdFree(later, u, e, event.clientId))
            && (outcome.Done? ==> outcome == Done(e) && WrittenExactly(env, next, u, e, event, clientTags, names,
                CategoryOfKind(db, u, Date)))
            && (!outcome.Done? ==> next == later)
  {
    CheckedTagsAreNotNew(db, later, u, clientTags, names, ids);
    CreatedOrFree(later, u, e, event.clientId);
    hide TagNamesUnique, BuildDateTags, WriteEvent, DatesHeld, HasKind, NewTagIds, EventCreated, ClientIdFree,
      TagsStand,
      WrittenExactly;
    LateWriteLinksExactly(env, db, later, u, e, event, clientTags, names, ids);
  }

  lemma CreatedOrFree(db: Db, u: UserId, e: Id, clientId: Option<string>)
    requires e !in db.events
    ensures (exists f :: EventCreated(db, u, clientId, f)) <==> !ClientIdFree(db, u, e, clientId)
  {
    if !ClientIdFree(db, u, e, clientId) {
      var f :| f in db.events && db.events[f].user == u && db.events[f].clientId == clientId;
      assert EventCreated(db, u, clientId, f);
    }
  }

  // The update goes through exactly when the client's tags and the event are still there; it
  // leaves the client id as it finds it
  lemma LateRewriteLinksExactly(env: Env, db: Db, later: Db, u: UserId, e: Id, description: string,
                                period: DateTags.Period, clientTags: seq<Id>, names: seq<string>, ids: seq<Id>)
    requires TagNamesUnique(later.tags) && LookedUp(db, later, u, clientTags, names, ids)
    ensures var (next, outcome) := RewriteEvent(env, later, u, e, description, period, clientTags,
                BuildDateTags(env, db, u, names), ids);
            var mine := e in later.events && later.events[e].user == u;
            && (outcome.Done? <==> TagsStand(later, clientTags) && mine)
            && (outcome.NotFound? <==> !mine)
            && (outcome.Done? ==> WrittenExactly(env, next, u, e,
                later.events[e].(description := description, period := period), clientTags, names,
                CategoryOfKind(db, u, Date)))
            && (!outcome.Done? ==> next == later)
  {
    CheckedTagsAreNotNew(db, later, u, clientTags, names, ids);
    hide TagNamesUnique, BuildDateTags, WriteEvent, DatesHeld, HasKind, NewTagIds, TagsStand, WrittenExactly;
    if e in later.events {
      LateWriteLinksExactly(env, db, later, u, e, later.events[e].(description := description, period := period),
          clientTags, names, ids);
    }
  }
}
