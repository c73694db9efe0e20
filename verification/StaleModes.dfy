/**
 A request goes by the flag its user had when it arrived, and stores what it was sent when
 the checks are through. These are the writes of requests whose flag may have changed since.
 */
module StaleModes {
  import opened Options
  import opened Encryption
  import opened Text
  import opened Catalog
  import opened CatalogInvariant
  import opened CatalogEvents
  import opened CatalogModes
  import opened CatalogRuns
  import opened NewUser

  // The use cases that store a name or a description
  predicate Writes(step: Step) {
    || step.CreateCategory? || step.UpdateCategory?
    || step.CreateTag? || step.UpdateTag?
    || step.CreateGroup? || step.UpdateGroup?
    || step.CreateEvent? || step.UpdateEvent?
  }

  // The tables as a request sees them that goes by the flag it arrived with
  function AsSeen(db: Db, u: UserId, seen: bool): Db
    requires u in db.users
  {
    db.(users := db.users[u := db.users[u].(e2ee := seen)])
  }

  ghost function Answer(env: Env, db: Db, step: Step): (r: (Db, Outcome))
    requires Enabled(db, step) && Writes(step)
    ensures r.0 == Apply(env, db, step)
  {
    match step
    case CreateCategory(u, id, req) => Catalog.CreateCategory(env, db, u, id, req)
    case UpdateCategory(u, id, name) => Catalog.UpdateCategory(env, db, u, id, name)
    case CreateTag(u, id, req) => Catalog.CreateTag(env, db, u, id, req)
    case UpdateTag(u, id, req) => Catalog.UpdateTag(env, db, u, id, req)
    case CreateGroup(u, id, c, req) => Catalog.CreateGroup(env, db, u, id, c, req)
    case UpdateGroup(u, id, req) => Catalog.UpdateGroup(env, db, u, id, req)
    case CreateEvent(u, id, req, names, ids) => CatalogEvents.CreateEvent(env, db, u, id, req, names, ids)
    case UpdateEvent(u, id, req, names, ids) => CatalogEvents.UpdateEvent(env, db, u, id, req, names, ids)
  }

  lemma SeenIsEnabled(db: Db, step: Step, seen: bool)
    requires Enabled(db, step) && Writes(step)
    ensures Enabled(AsSeen(db, step.u, seen), step)
  {
  }

  // A write by the flag the request saw, which leaves the stored flag as it is
  ghost function WriteSeeing(env: Env, db: Db, step: Step, seen: bool): (Db, Outcome)
    requires Enabled(db, step) && Writes(step)
  {
    SeenIsEnabled(db, step, seen);
    var (next, outcome) := Answer(env, AsSeen(db, step.u, seen), step);
    (next.(users := db.users), outcome)
  }

  // The value the write left in its row
  ghost predicate Holds(db: Db, step: Step, value: string)
    requires Writes(step)
  {
    if step.CreateCategory? || step.UpdateCategory? then
      OwnsCategory(db, step.u, step.id) && db.categories[step.id].name == value
    else if step.CreateTag? || step.UpdateTag? then
      OwnsTag(db.categories, db.tags, step.u, step.id) && db.tags[step.id].key.name == value
    else if step.CreateGroup? || step.UpdateGroup? then
      OwnsGroup(db, step.u, step.id) && db.groups[step.id].name == value
    else
      step.id in db.events && db.events[step.id].user == step.u && db.events[step.id].description == value
  }

  // What the service lets through by the flag it goes by
  ghost predicate LetThrough(k: Cipher, seen: bool, u: UserId, value: string) {
    if seen then value == "" || IsBlob(value) else exists text :: value == k.enc(u, text)
  }

  lemma EncIsLetThrough(k: Cipher, u: UserId, text: string)
    ensures LetThrough(k, false, u, k.enc(u, text))
  {
  }

  lemma NameIsLetThrough(env: Env, db: Db, u: UserId, name: string)
    ensures NameToStore(env, db, u, name).Some? ==>
              LetThrough(env.cipher, E2ee(db, u), u, NameToStore(env, db, u, name).value)
    ensures CategoryName(env, db, u, name).Some? ==>
              LetThrough(env.cipher, E2ee(db, u), u, CategoryName(env, db, u, name).value)
    ensures (E2ee(db, u) ==> name == "" || IsBlob(name)) ==>
              LetThrough(env.cipher, E2ee(db, u), u, StoredDescription(env, db, u, name))
  {
    EncIsLetThrough(env.cipher, u, name);
    EncIsLetThrough(env.cipher, u, TitleCase(env.alphabet, name));
    hide IsBlob, TitleCase, IsReserved;
  }

  lemma WrittenCategory(env: Env, db: Db, step: Step)
    requires Enabled(db, step) && (step.CreateCategory? || step.UpdateCategory?) && Answer(env, db, step).1.Done?
    ensures exists value :: Holds(Apply(env, db, step), step, value)
                            && LetThrough(env.cipher, E2ee(db, step.u), step.u, value)
  {
    var name := if step.CreateCategory? then step.category.name else step.name;
    NameIsLetThrough(env, db, step.u, name);
    hide LetThrough, CategoryName;
    assert Holds(Apply(env, db, step), step, CategoryName(env, db, step.u, name).value);
  }

  lemma WrittenTag(env: Env, db: Db, step: Step)
    requires Enabled(db, step) && (step.CreateTag? || step.UpdateTag?) && Answer(env, db, step).1.Done?
    ensures exists value :: Holds(Apply(env, db, step), step, value)
                            && LetThrough(env.cipher, E2ee(db, step.u), step.u, value)
  {
    NameIsLetThrough(env, db, step.u, step.tag.name);
    hide LetThrough, NameToStore, TagNamesUnique, Regroup, IndexAccepted, ParentAccepted;
    assert Holds(Apply(env, db, step), step, NameToStore(env, db, step.u, step.tag.name).value);
  }

  lemma WrittenGroup(env: Env, db: Db, step: Step)
    requires Enabled(db, step) && (step.CreateGroup? || step.UpdateGroup?) && Answer(env, db, step).1.Done?
    ensures exists value :: Holds(Apply(env, db, step), step, value)
                            && LetThrough(env.cipher, E2ee(db, step.u), step.u, value)
  {
    NameIsLetThrough(env, db, step.u, step.group.name);
    hide LetThrough, NameToStore, KeysUnique, IndexAccepted;
    assert Holds(Apply(env, db, step), step, NameToStore(env, db, step.u, step.group.name).value);
  }

  lemma WrittenEvent(env: Env, db: Db, step: Step)
    requires Enabled(db, step) && (step.CreateEvent? || step.UpdateEvent?) && Answer(env, db, step).1.Done?
    ensures exists value :: Holds(Apply(env, db, step), step, value)
                            && LetThrough(env.cipher, E2ee(db, step.u), step.u, value)
  {
    NameIsLetThrough(env, db, step.u, step.event.description);
    hide LetThrough, StoredDescription, DateTagsFor, CreateAll, NewTagIds, HasKind, LinksTo, EventCreated;
    assert Holds(Apply(env, db, step), step, StoredDescription(env, db, step.u, step.event.description));
  }

  // An accepted write leaves in its row a value of the mode the request saw
  lemma WrittenBySeen(env: Env, db: Db, step: Step, seen: bool) returns (value: string)
    requires Enabled(db, step) && Writes(step) && WriteSeeing(env, db, step, seen).1.Done?
    ensures Holds(WriteSeeing(env, db, step, seen).0, step, value) && LetThrough(env.cipher, seen, step.u, value)
  {
    SeenIsEnabled(db, step, seen);
    var saw := AsSeen(db, step.u, seen);
    hide Enabled, Answer, Apply, LetThrough;
    if step.CreateCategory? || step.UpdateCategory? {
      WrittenCategory(env, saw, step);
    } else if step.CreateTag? || step.UpdateTag? {
      WrittenTag(env, saw, step);
    } else if step.CreateGroup? || step.UpdateGroup? {
      WrittenGroup(env, saw, step);
    } else {
      WrittenEvent(env, saw, step);
    }
    value :| Holds(Apply(env, saw, step), step, value) && LetThrough(env.cipher, seen, step.u, value);
  }

  // No value is of both modes
  lemma ModesExclude(k: Cipher, seen: bool, u: UserId, value: string)
    requires Sound(k) && LetThrough(k, seen, u, value)
    ensures seen ==> k.dec(u, value) == None
    ensures !seen ==> AtRest(k, u, value) && value != "" && !IsBlob(value)
  {
    if seen {
      if value == "" {
        EmptyIsNotAtRest(k, u, "");
      } else {
        BlobsAreNotAtRest(k, u, "", value);
      }
    } else {
      var text :| value == k.enc(u, text);
      EncIsAtRest(k, u, text);
      EmptyIsNotAtRest(k, u, text);
      if IsBlob(value) {
        BlobsAreNotAtRest(k, u, text, value);
      }
    }
  }

  lemma HeldInMode(k: Cipher, db: Db, step: Step, value: string)
    requires Writes(step) && Modes(k, db) && Holds(db, step, value)
    ensures DescriptionMode(k, On(db.users, step.u), step.u, value)
  {
    hide Stored, UserModes;
  }

  lemma SeenAsStored(db: Db, u: UserId)
    requires u in db.users
    ensures AsSeen(db, u, On(db.users, u)) == db
  {
  }

  // Requests that are refused, or whose create was done before, change nothing
  lemma RefusedWritesChangeNothing(env: Env, db: Db, step: Step, seen: bool)
    requires Enabled(db, step) && Writes(step) && !WriteSeeing(env, db, step, seen).1.Done?
    ensures WriteSeeing(env, db, step, seen).0 == db
  {
    SeenIsEnabled(db, step, seen);
    var saw := AsSeen(db, step.u, seen);
    hide Enabled, Apply, TagAccepted, GroupAccepted, EventAccepted, DateTagsFor, CreateAll, StoredTag, StoredGroup,
      PutGroup, CategoryName, HasSynonyms, EventCreated, CategoryCreated, LinksTo, TagNamesUnique, KeysUnique;
    assert Answer(env, saw, step).0 == saw;
    assert saw.(users := db.users) == db;
  }

  lemma UsersStay(env: Env, db: Db, step: Step)
    requires Enabled(db, step) && Writes(step)
    ensures Apply(env, db, step).users == db.users
  {
    hide TagAccepted, GroupAccepted, EventAccepted, DateTagsFor, CreateAll, StoredTag, StoredGroup, CategoryName,
      HasSynonyms, EventCreated, CategoryCreated, LinksTo, TagNamesUnique, KeysUnique;
  }

  lemma WriteOfStored(env: Env, db: Db, step: Step)
    requires Enabled(db, step) && Writes(step)
    ensures WriteSeeing(env, db, step, On(db.users, step.u)).0 == Apply(env, db, step)
  {
    SeenAsStored(db, step.u);
    UsersStay(env, db, step);
    hide AsSeen, Apply, Answer, Enabled;
  }

  lemma StoredFlagStays(env: Env, db: Db, step: Step, seen: bool)
    requires Enabled(db, step) && Writes(step)
    ensures WriteSeeing(env, db, step, seen).0.users == db.users
  {
  }

  // An accepted write keeps every value in its user's mode exactly when the flag the request
  // went by is the stored one
  lemma WriteKeepsModesExactlyWhenSeenIsStored(env: Env, db: Db, step: Step, seen: bool)
    requires Sound(env.cipher) && Aggregate(db) && Modes(env.cipher, db) && Enabled(db, step) && Writes(step)
    requires WriteSeeing(env, db, step, seen).1.Done?
    ensures Modes(env.cipher, WriteSeeing(env, db, step, seen).0) <==> seen == On(db.users, step.u)
  {
    hide Sound, Modes, Aggregate, Answer, Apply, IsBlob, LetThrough, Holds;
    if seen == On(db.users, step.u) {
      SeenAsStored(db, step.u);
      hide Enabled, AsSeen;
      StepKeepsModes(env, db, step);
      WriteOfStored(env, db, step);
    } else {
      var value := WrittenBySeen(env, db, step, seen);
      ModesExclude(env.cipher, seen, step.u, value);
      hide Enabled;
      if Modes(env.cipher, WriteSeeing(env, db, step, seen).0) {
        HeldInMode(env.cipher, WriteSeeing(env, db, step, seen).0, step, value);
        StoredFlagStays(env, db, step, seen);
      }
    }
  }

  // The consequences of either kind of stale write: what was stored under E2EE but at rest is no
  // blob to the user's devices, and what was stored encrypted by them after E2EE was turned off
  // fails every read of its row
  lemma StaleValues(env: Env, db: Db, step: Step, seen: bool)
    requires Sound(env.cipher) && Enabled(db, step) && Writes(step)
    requires WriteSeeing(env, db, step, seen).1.Done? && seen != On(db.users, step.u)
    ensures exists value :: Holds(WriteSeeing(env, db, step, seen).0, step, value)
                            && if seen then env.cipher.dec(step.u, value) == None else value != "" && !IsBlob(value)
  {
    var value := WrittenBySeen(env, db, step, seen);
    ModesExclude(env.cipher, seen, step.u, value);
  }

  lemma SameUsersKeep(db: Db, users: map<UserId, User>)
    requires Aggregate(db) && users.Keys == db.users.Keys
    ensures Aggregate(db.(users := users))
  {
    assert forall u :: u in users <==> u in users.Keys;
    assert forall u :: u in db.users <==> u in db.users.Keys;
    hide HasKind, TagsOk, TagNamesUnique, GroupsOk, KeysUnique, MembersOk, LinksOk, PeriodOk, Apart;
  }

  // Whatever flag a request goes by, the tables stay consistent
  lemma StaleWriteKeepsAggregate(env: Env, db: Db, step: Step, seen: bool)
    requires Aggregate(db) && Enabled(db, step) && Writes(step)
    ensures Aggregate(WriteSeeing(env, db, step, seen).0)
  {
    SeenIsEnabled(db, step, seen);
    var saw := AsSeen(db, step.u, seen);
    SameUsersKeep(db, saw.users);
    hide Enabled, Apply, Answer, Aggregate;
    StepKeepsAggregate(env, saw, step);
    UsersStay(env, saw, step);
    SameUsersKeep(Apply(env, saw, step), db.users);
  }

  // ---- Runs of requests by whatever flags they saw ----

  // The flag also tells whether a date tag may be deleted; the other use cases do not go by it
  datatype Request = Request(step: Step, seen: bool)

  ghost function Serve(env: Env, db: Db, request: Request): Db
    requires Enabled(db, request.step)
  {
    var step := request.step;
    if Writes(step) then WriteSeeing(env, db, step, request.seen).0
    else if step.DeleteTag? then
      Catalog.DeleteTag(AsSeen(db, step.u, request.seen), step.u, step.id, step.deleteEvents).0.(users := db.users)
    else Apply(env, db, step)
  }

  // The request goes by the stored flag, or stores nothing
  ghost predicate Timely(env: Env, db: Db, request: Request)
    requires Enabled(db, request.step)
  {
    Writes(request.step) && WriteSeeing(env, db, request.step, request.seen).1.Done? ==>
      request.seen == On(db.users, request.step.u)
  }

  lemma FewerIgnoresLinks(next: Db, db: Db, links: set<Link>)
    requires Fewer(next, db.(links := links))
    ensures Fewer(next, db)
  {
  }

  lemma TaggedDeletionIsFewer(db: Db, links: set<Link>, events: set<Id>, tags: set<Id>)
    ensures Fewer(DeleteTags(db.(links := links), tags), db) && Fewer(DeleteTags(DeleteEvents(db, events), tags), db)
  {
    DeletionsAreFewer(db, events);
    DeletionsAreFewer(DeleteEvents(db, events), tags);
    DeletionsAreFewer(db.(links := links), tags);
    hide DeleteTags, DeleteEvents, Fewer;
    FewerIsTransitive(DeleteTags(DeleteEvents(db, events), tags), DeleteEvents(db, events), db);
    FewerIgnoresLinks(DeleteTags(db.(links := links), tags), db, links);
  }

  lemma DeleteTagIsFewer(db: Db, u: UserId, id: Id, deleteEvents: bool)
    ensures Fewer(Catalog.DeleteTag(db, u, id, deleteEvents).0, db)
  {
    TaggedDeletionIsFewer(db, db.links, EventsOf(db.events, u) * EventsTagged(db.links, SynonymGroup(db.tags, id)),
        {id});
    if id in db.tags && db.tags[id].parent.Some? {
      TaggedDeletionIsFewer(db, Repoint(db.links, id, db.tags[id].parent.value), {}, {id});
    }
    hide DeleteTags, DeleteEvents, Repoint, EventsTagged, SynonymGroup, IsServerTag, OwnsTag, EventsOf;
    assert db.(links := db.links) == db;
  }

  lemma FewerThanSeen(next: Db, db: Db, u: UserId, seen: bool)
    requires u in db.users && Fewer(next, AsSeen(db, u, seen))
    ensures Fewer(next.(users := db.users), db) && next.users.Keys == db.users.Keys
  {
  }

  lemma StaleDeletionKeepsModes(k: Cipher, db: Db, u: UserId, id: Id, deleteEvents: bool, seen: bool)
    requires u in db.users && Modes(k, db)
    ensures Modes(k, Catalog.DeleteTag(AsSeen(db, u, seen), u, id, deleteEvents).0.(users := db.users))
  {
    var saw := AsSeen(db, u, seen);
    var next := Catalog.DeleteTag(saw, u, id, deleteEvents).0;
    hide Modes, Fewer, Catalog.DeleteTag;
    DeleteTagIsFewer(saw, u, id, deleteEvents);
    FewerThanSeen(next, db, u, seen);
    FewerKeepsModes(k, next.(users := db.users), db);
  }

  // Whatever flags requests go by, the tables stay consistent
  lemma ServeKeepsAggregate(env: Env, db: Db, request: Request)
    requires Aggregate(db) && Enabled(db, request.step)
    ensures Aggregate(Serve(env, db, request))
  {
    var step := request.step;
    hide Aggregate, Apply, WriteSeeing, Catalog.DeleteTag, Fewer;
    if Writes(step) {
      StaleWriteKeepsAggregate(env, db, step, request.seen);
    } else if step.DeleteTag? {
      var saw := AsSeen(db, step.u, request.seen);
      var next := Catalog.DeleteTag(saw, step.u, step.id, step.deleteEvents).0;
      SameUsersKeep(db, saw.users);
      DeleteTagKeeps(saw, step.u, step.id, step.deleteEvents);
      DeleteTagIsFewer(saw, step.u, step.id, step.deleteEvents);
      FewerThanSeen(next, db, step.u, request.seen);
      SameUsersKeep(next, db.users);
    } else {
      StepKeepsAggregate(env, db, step);
    }
  }

  // A request keeps the modes exactly when it is timely
  lemma ServeKeepsModesExactlyWhenTimely(env: Env, db: Db, request: Request)
    requires Sound(env.cipher) && Aggregate(db) && Modes(env.cipher, db) && Enabled(db, request.step)
    ensures Modes(env.cipher, Serve(env, db, request)) <==> Timely(env, db, request)
  {
    var step := request.step;
    hide Sound, Aggregate, Modes, Apply, AsSeen, WriteSeeing;
    if Writes(step) {
      if WriteSeeing(env, db, step, request.seen).1.Done? {
        WriteKeepsModesExactlyWhenSeenIsStored(env, db, step, request.seen);
      } else {
        RefusedWritesChangeNothing(env, db, step, request.seen);
      }
    } else if step.DeleteTag? {
      StaleDeletionKeepsModes(env.cipher, db, step.u, step.id, step.deleteEvents, request.seen);
    } else {
      StepKeepsModes(env, db, step);
    }
  }

  ghost predicate Admissible(env: Env, db: Db, requests: seq<Request>)
    decreases |requests|
  {
    requests != [] ==>
      Enabled(db, requests[0].step) && Admissible(env, Serve(env, db, requests[0]), requests[1..])
  }

  ghost function ServeAll(env: Env, db: Db, requests: seq<Request>): Db
    requires Admissible(env, db, requests)
    decreases |requests|
  {
    if requests == [] then db else ServeAll(env, Serve(env, db, requests[0]), requests[1..])
  }

  ghost predicate AllTimely(env: Env, db: Db, requests: seq<Request>)
    requires Admissible(env, db, requests)
    decreases |requests|
  {
    requests != [] ==>
      Timely(env, db, requests[0]) && AllTimely(env, Serve(env, db, requests[0]), requests[1..])
  }

  // No state the requests lead through has a value in the wrong mode
  ghost predicate InModeThroughout(env: Env, db: Db, requests: seq<Request>)
    requires Admissible(env, db, requests)
    decreases |requests|
  {
    && Modes(env.cipher, db)
    && (requests != [] ==> InModeThroughout(env, Serve(env, db, requests[0]), requests[1..]))
  }

  // Over whole runs of requests that saw whatever flags: the tables stay consistent ...
  lemma {:induction false} StaleRunsKeepAggregate(env: Env, db: Db, requests: seq<Request>)
    requires Aggregate(db) && Admissible(env, db, requests)
    ensures Aggregate(ServeAll(env, db, requests))
    decreases |requests|
  {
    hide Aggregate, Enabled, Serve;
    if requests != [] {
      ServeKeepsAggregate(env, db, requests[0]);
      StaleRunsKeepAggregate(env, Serve(env, db, requests[0]), requests[1..]);
    }
  }

  // ... and the values stay in their modes exactly when every accepted write went by the flag
  // then stored
  lemma {:induction false} RunsStayInModeExactlyWhenTimely(env: Env, db: Db, requests: seq<Request>)
    requires Sound(env.cipher) && Aggregate(db) && Modes(env.cipher, db) && Admissible(env, db, requests)
    ensures InModeThroughout(env, db, requests) <==> AllTimely(env, db, requests)
    decreases |requests|
  {
    hide Sound, Aggregate, Modes, Enabled, Serve, Timely;
    if requests != [] {
      ServeKeepsAggregate(env, db, requests[0]);
      ServeKeepsModesExactlyWhenTimely(env, db, requests[0]);
      if Timely(env, db, requests[0]) {
        RunsStayInModeExactlyWhenTimely(env, Serve(env, db, requests[0]), requests[1..]);
      }
    }
  }

  // ---- A run for each kind of stale write ----

  lemma CategoryIsCreated(env: Env, db: Db, late: Step, seen: bool)
    requires JustSeeds(db) && late.CreateCategory? && late.u == 0 && late.id == 3
    requires late.category.clientId == None && (seen ==> IsBlob(late.category.name))
    ensures Enabled(db, late)
    ensures var (next, outcome) := WriteSeeing(env, db, late, seen);
            outcome == Done(3) && OwnsCategory(next, 0, 3)
            && (seen ==> next.categories[3].name == late.category.name)
  {
    hide IsBlob, TitleCase;
  }

  // A request that arrived before E2EE was turned on stores text at rest after
  lemma TextAfterEnable(env: Env, check: string, blob: string, text: string)
    requires Sound(env.cipher) && IsKeyCheck(check) && IsBlob(blob)
    ensures var db := TurnedOn(env, check, blob).0;
            var late := Step.CreateCategory(0, 3, CategoryRequest(text, None));
            && Enabled(db, late) && WriteSeeing(env, db, late, false).1 == Done(3)
            && !Modes(env.cipher, WriteSeeing(env, db, late, false).0)
  {
    var db := TurnedOn(env, check, blob).0;
    var late := Step.CreateCategory(0, 3, CategoryRequest(text, None));
    TurnedOnInOrder(env, check, blob);
    CategoryIsCreated(env, db, late, false);
    hide Aggregate, Modes, Sound, TurnedOn, IsBlob, IsKeyCheck, Enabled, WriteSeeing;
    WriteKeepsModesExactlyWhenSeenIsStored(env, db, late, false);
  }

  // A request that arrived under E2EE stores a blob after it was turned off, and reading the
  // user's categories fails from then on
  lemma BlobAfterDisable(env: Env, check: string, blob: string, name: string)
    requires Sound(env.cipher) && IsKeyCheck(check) && IsBlob(blob) && !IsBlank(env.alphabet, name)
    ensures var db := TurnedOff(env, check, blob, name).0;
            var late := Step.CreateCategory(0, 3, CategoryRequest(blob, None));
            && Enabled(db, late) && WriteSeeing(env, db, late, true).1 == Done(3)
            && var next := WriteSeeing(env, db, late, true).0;
            !Modes(env.cipher, next) && OwnsCategory(next, 0, 3)
            && env.cipher.dec(0, next.categories[3].name) == None
  {
    var db := TurnedOff(env, check, blob, name).0;
    var late := Step.CreateCategory(0, 3, CategoryRequest(blob, None));
    TurnedOffInOrder(env, check, blob, name);
    CategoryIsCreated(env, db, late, true);
    BlobsAreNotAtRest(env.cipher, 0, "", blob);
    hide Aggregate, Modes, Sound, TurnedOff, IsBlob, IsKeyCheck, IsBlank, Enabled, WriteSeeing;
    WriteKeepsModesExactlyWhenSeenIsStored(env, db, late, true);
  }
}
