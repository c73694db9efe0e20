/** Whole runs of the use cases over the tables of all users. */
module CatalogRuns {
  import opened Options
  import opened Encryption
  import opened Catalog
  import opened CatalogInvariant
  import opened CatalogEvents
  import opened CatalogModes
  import opened Migration
  import opened MigrationTheorems

  datatype Step =
    | Register(u: UserId, dates: Id, persons: Id, others: Id)
    | CreateCategory(u: UserId, id: Id, category: CategoryRequest)
    | UpdateCategory(u: UserId, id: Id, name: string)
    | DeleteCategory(u: UserId, id: Id, moveTags: bool, deleteEvents: bool)
    | CreateTag(u: UserId, id: Id, tag: TagRequest)
    | UpdateTag(u: UserId, id: Id, tag: TagRequest)
    | DeleteTag(u: UserId, id: Id, deleteEvents: bool)
    | CreateGroup(u: UserId, id: Id, inCategory: Id, group: GroupRequest)
    | UpdateGroup(u: UserId, id: Id, group: GroupRequest)
    | DeleteGroup(u: UserId, id: Id)
    | CreateEvent(u: UserId, id: Id, event: EventRequest, names: seq<string>, ids: seq<Id>)
    | UpdateEvent(u: UserId, id: Id, event: EventRequest, names: seq<string>, ids: seq<Id>)
    | DeleteEvent(u: UserId, id: Id)
    | Enable(u: UserId, keyCheck: string, data: Dataset)
    | Disable(u: UserId, data: Dataset)
    | Purge(u: UserId, dates: Id, persons: Id, others: Id)

  const EMPTY := Db(map[], map[], map[], map[], {}, map[], {})

  ghost predicate EventRows(db: Db, u: UserId, names: seq<string>, ids: seq<Id>) {
    HasKind(db.categories, u, Date) && |ids| == |names| && NewTagIds(db, ids)
  }

  // Requests come from registered users, who have their date category (UserHasDates); the ids
  // of new rows are new
  ghost predicate Enabled(db: Db, step: Step) {
    && (if step.Register? then step.u !in db.users else step.u in db.users)
    && match step
       case Register(u, d, p, o) => NewIds(db, d, p, o)
       case Purge(u, d, p, o) => NewIds(db, d, p, o)
       case CreateCategory(_, id, _) => id !in db.categories
       case CreateTag(_, id, _) => id !in db.tags
       case CreateGroup(_, id, _, _) => id !in db.groups
       case CreateEvent(_, id, _, names, ids) => id !in db.events && EventRows(db, step.u, names, ids)
       case UpdateEvent(_, _, _, names, ids) => EventRows(db, step.u, names, ids)
       case _ => true
  }

  ghost function Apply(env: Env, db: Db, step: Step): Db
    requires Enabled(db, step)
  {
    match step
    case Register(u, d, p, o) => Catalog.Register(env, db, u, d, p, o).0
    case CreateCategory(u, id, req) => Catalog.CreateCategory(env, db, u, id, req).0
    case UpdateCategory(u, id, name) => Catalog.UpdateCategory(env, db, u, id, name).0
    case DeleteCategory(u, id, move, del) => Catalog.DeleteCategory(db, u, id, move, del).0
    case CreateTag(u, id, req) => Catalog.CreateTag(env, db, u, id, req).0
    case UpdateTag(u, id, req) => Catalog.UpdateTag(env, db, u, id, req).0
    case DeleteTag(u, id, del) => Catalog.DeleteTag(db, u, id, del).0
    case CreateGroup(u, id, c, req) => Catalog.CreateGroup(env, db, u, id, c, req).0
    case UpdateGroup(u, id, req) => Catalog.UpdateGroup(env, db, u, id, req).0
    case DeleteGroup(u, id) => Catalog.DeleteGroup(db, u, id).0
    case CreateEvent(u, id, req, names, ids) => CatalogEvents.CreateEvent(env, db, u, id, req, names, ids).0
    case UpdateEvent(u, id, req, names, ids) => CatalogEvents.UpdateEvent(env, db, u, id, req, names, ids).0
    case DeleteEvent(u, id) => CatalogEvents.DeleteEvent(db, u, id).0
    case Enable(u, check, data) => Migration.Enable(db, u, check, data).0
    case Disable(u, data) => Migration.Disable(env, db, u, data).0
    case Purge(u, d, p, o) => Catalog.Purge(env, db, u, d, p, o).0
  }

  // ---- Consistency ----

  lemma StepKeepsAggregate(env: Env, db: Db, step: Step)
    requires Aggregate(db) && Enabled(db, step)
    ensures Aggregate(Apply(env, db, step))
  {
    hide Aggregate, NewIds, NewTagIds, HasKind, NoBlanks, ShapesOk, IsKeyCheck, CoversAll, Swap;
    hide Catalog.Register, Catalog.CreateCategory, Catalog.UpdateCategory, Catalog.DeleteCategory, Catalog.Purge,
      Catalog.CreateTag, Catalog.UpdateTag, Catalog.DeleteTag, Catalog.CreateGroup, Catalog.UpdateGroup,
      Catalog.DeleteGroup, CatalogEvents.CreateEvent, CatalogEvents.UpdateEvent, CatalogEvents.DeleteEvent;
    match step
    case Register(u, d, p, o) => RegisterKeeps(env, db, u, d, p, o);
    case CreateCategory(u, id, req) => CreateCategoryKeeps(env, db, u, id, req);
    case UpdateCategory(u, id, name) => UpdateCategoryKeeps(env, db, u, id, name);
    case DeleteCategory(u, id, move, del) => DeleteCategoryKeeps(db, u, id, move, del);
    case CreateTag(u, id, req) => CreateTagKeeps(env, db, u, id, req);
    case UpdateTag(u, id, req) => UpdateTagKeeps(env, db, u, id, req);
    case DeleteTag(u, id, del) => DeleteTagKeeps(db, u, id, del);
    case CreateGroup(u, id, c, req) => CreateGroupKeeps(env, db, u, id, c, req);
    case UpdateGroup(u, id, req) => UpdateGroupKeeps(env, db, u, id, req);
    case DeleteGroup(u, id) => DeleteGroupKeeps(db, u, id);
    case CreateEvent(u, id, req, names, ids) => CreateEventKeeps(env, db, u, id, req, names, ids);
    case UpdateEvent(u, id, req, names, ids) => UpdateEventKeeps(env, db, u, id, req, names, ids);
    case DeleteEvent(u, id) => DeleteEventKeeps(db, u, id);
    case Enable(u, check, data) => SwapKeeps(db, u, true, Some(check), data);
    case Disable(u, data) => SwapKeeps(db, u, false, None, AtRestData(env.cipher, u, Normal(env.alphabet, data)));
    case Purge(u, d, p, o) => PurgeKeeps(env, db, u, d, p, o);
  }

  // ---- Modes ----

  lemma MigrationKeepsModes(env: Env, db: Db, step: Step)
    requires Sound(env.cipher) && Aggregate(db) && Modes(env.cipher, db) && Enabled(db, step)
             && (step.Enable? || step.Disable?)
    ensures Modes(env.cipher, Apply(env, db, step))
  {
    hide Aggregate, Modes, Sound, NoBlanks, ShapesOk, IsKeyCheck, DataMode, AtRestData, Normal, Swap;
    if step.Enable? {
      if IsKeyCheck(step.keyCheck) && ShapesOk(step.data) {
        EnableDataMode(env.cipher, step.u, step.data);
        SwapKeepsModes(env.cipher, db, step.u, true, Some(step.keyCheck), step.data);
      }
    } else {
      DisableDataMode(env, step.u, step.data);
      SwapKeepsModes(env.cipher, db, step.u, false, None,
          AtRestData(env.cipher, step.u, Normal(env.alphabet, step.data)));
    }
  }

  lemma RegistrationKeepsModes(env: Env, db: Db, u: UserId, dates: Id, persons: Id, others: Id)
    requires Sound(env.cipher) && Aggregate(db) && Modes(env.cipher, db) && u !in db.users
             && NewIds(db, dates, persons, others)
    ensures Modes(env.cipher, Catalog.Register(env, db, u, dates, persons, others).0)
  {
    assert Bare(db, u) && EventsOf(db.events, u) == {} by {
      hide TagsOk, TagNamesUnique, GroupsOk, KeysUnique, MembersOk, LinksOk, Modes, Sound;
    }
    hide Aggregate, Modes, Sound, Bare;
    RegisterKeepsModes(env, db, u, dates, persons, others);
  }

  lemma AggregateTags(db: Db)
    requires Aggregate(db)
    ensures TagsOk(db.categories, db.tags) && TagNamesUnique(db.tags)
  {
  }

  predicate OfTags(step: Step) {
    step.CreateTag? || step.UpdateTag? || step.DeleteTag? || step.CreateGroup? || step.UpdateGroup? || step.DeleteGroup?
  }

  lemma TagStepKeepsModes(env: Env, db: Db, step: Step)
    requires Sound(env.cipher) && Aggregate(db) && Modes(env.cipher, db) && Enabled(db, step) && OfTags(step)
    ensures Modes(env.cipher, Apply(env, db, step))
  {
    hide Aggregate, Modes, Sound, EventRows, NewIds, TagsOk, TagNamesUnique;
    AggregateTags(db);
    hide Catalog.CreateTag, Catalog.UpdateTag, Catalog.DeleteTag, Catalog.CreateGroup, Catalog.UpdateGroup,
      Catalog.DeleteGroup;
    match step
    case CreateTag(u, id, req) => CreateTagKeepsModes(env, db, u, id, req);
    case UpdateTag(u, id, req) => UpdateTagKeepsModes(env, db, u, id, req);
    case DeleteTag(u, id, del) => DeleteTagKeepsModes(env.cipher, db, u, id, del);
    case CreateGroup(u, id, c, req) => CreateGroupKeepsModes(env, db, u, id, c, req);
    case UpdateGroup(u, id, req) => UpdateGroupKeepsModes(env, db, u, id, req);
    case DeleteGroup(u, id) => DeleteGroupKeepsModes(env.cipher, db, u, id);
  }

  lemma EventStepKeepsModes(env: Env, db: Db, step: Step)
    requires Sound(env.cipher) && Aggregate(db) && Modes(env.cipher, db) && Enabled(db, step)
    requires step.CreateEvent? || step.UpdateEvent? || step.DeleteEvent?
    ensures Modes(env.cipher, Apply(env, db, step))
  {
    hide Aggregate, Modes, Sound, NewTagIds, NewIds, TagsOk, TagNamesUnique, HasKind;
    AggregateTags(db);
    hide CatalogEvents.CreateEvent, CatalogEvents.UpdateEvent, CatalogEvents.DeleteEvent;
    match step
    case CreateEvent(u, id, req, names, ids) => CreateEventKeepsModes(env, db, u, id, req, names, ids);
    case UpdateEvent(u, id, req, names, ids) => UpdateEventKeepsModes(env, db, u, id, req, names, ids);
    case DeleteEvent(u, id) => DeleteEventKeepsModes(env.cipher, db, u, id);
  }

  lemma StepKeepsModes(env: Env, db: Db, step: Step)
    requires Sound(env.cipher) && Aggregate(db) && Modes(env.cipher, db) && Enabled(db, step)
    ensures Modes(env.cipher, Apply(env, db, step))
  {
    hide Aggregate, Modes, Sound, NewIds, NewTagIds;
    hide Catalog.Register, Catalog.CreateCategory, Catalog.UpdateCategory, Catalog.DeleteCategory, Catalog.Purge,
      Catalog.CreateTag, Catalog.UpdateTag, Catalog.DeleteTag, Catalog.CreateGroup, Catalog.UpdateGroup,
      Catalog.DeleteGroup, CatalogEvents.CreateEvent, CatalogEvents.UpdateEvent, CatalogEvents.DeleteEvent;
    match step
    case Register(u, d, p, o) => RegistrationKeepsModes(env, db, u, d, p, o);
    case CreateCategory(u, id, req) => CreateCategoryKeepsModes(env, db, u, id, req);
    case UpdateCategory(u, id, name) => UpdateCategoryKeepsModes(env, db, u, id, name);
    case DeleteCategory(u, id, move, del) => DeleteCategoryKeepsModes(env.cipher, db, u, id, move, del);
    case Purge(u, d, p, o) => PurgeKeepsModes(env, db, u, d, p, o);
    case _ =>
      if OfTags(step) {
        TagStepKeepsModes(env, db, step);
      } else if step.Enable? || step.Disable? {
        MigrationKeepsModes(env, db, step);
      } else {
        EventStepKeepsModes(env, db, step);
      }
  }

  // ---- Runs ----

  ghost predicate Legal(env: Env, db: Db, steps: seq<Step>)
    decreases |steps|
  {
    steps != [] ==> Enabled(db, steps[0]) && Legal(env, Apply(env, db, steps[0]), steps[1..])
  }

  ghost function Run(env: Env, db: Db, steps: seq<Step>): Db
    requires Legal(env, db, steps)
    decreases |steps|
  {
    if steps == [] then db else Run(env, Apply(env, db, steps[0]), steps[1..])
  }

  // In every state any sequence of use cases leads to, the tables are consistent, and what
  // each user stored is in the mode his flag tells
  lemma {:induction false} RunsKeepEverything(env: Env, db: Db, steps: seq<Step>)
    requires Sound(env.cipher) && Aggregate(db) && Modes(env.cipher, db) && Legal(env, db, steps)
    ensures Aggregate(Run(env, db, steps)) && Modes(env.cipher, Run(env, db, steps))
    decreases |steps|
  {
    hide Aggregate, Modes, Sound, Enabled, Apply;
    if steps != [] {
      StepKeepsAggregate(env, db, steps[0]);
      StepKeepsModes(env, db, steps[0]);
      RunsKeepEverything(env, Apply(env, db, steps[0]), steps[1..]);
    }
  }

  lemma EmptyIsConsistent(k: Cipher)
    ensures Aggregate(EMPTY) && Modes(k, EMPTY)
  {
  }

  // No read of a value stored without E2EE fails to decrypt
  lemma EveryReadDecrypts(env: Env, steps: seq<Step>)
    requires Sound(env.cipher) && Legal(env, EMPTY, steps)
    ensures var db := Run(env, EMPTY, steps);
            && (forall c | c in db.categories && !E2ee(db, db.categories[c].user) ::
                env.cipher.dec(db.categories[c].user, db.categories[c].name).Some?)
            && (forall u, t | t in TagsOf(db, u) && !E2ee(db, u) :: env.cipher.dec(u, db.tags[t].key.name).Some?)
            && (forall u, g | g in GroupsOf(db, u) && !E2ee(db, u) :: env.cipher.dec(u, db.groups[g].name).Some?)
            && (forall e | e in db.events && !E2ee(db, db.events[e].user) ::
                env.cipher.dec(db.events[e].user, db.events[e].description).Some?)
  {
    EmptyIsConsistent(env.cipher);
    RunsKeepEverything(env, EMPTY, steps);
    var db := Run(env, EMPTY, steps);
    forall u | !E2ee(db, u)
      ensures forall t | t in TagsOf(db, u) :: KeyMode(env.cipher, false, u, db.tags[t].key)
      ensures forall g | g in GroupsOf(db, u) :: KeyMode(env.cipher, false, u, db.groups[g])
    {
      AtRestOfMine(env.cipher, db, u);
    }
    hide Aggregate, Run, Legal;
  }
}
