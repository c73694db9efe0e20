/** What the use cases of tags answer, and what they change, told from the request alone. */
module TagEffects {
  import opened Options
  import opened Encryption
  import opened Text
  import opened Catalog
  import opened CatalogInvariant
  import opened StoredValues

  // An own category that is not the dates, unless E2EE is on; a blob with its index under
  // E2EE, and else no name of a date tag; and another main tag of the category as the parent
  ghost predicate Fits(env: Env, db: Db, u: UserId, id: Id, req: TagRequest) {
    var on := u in db.users && db.users[u].e2ee;
    && req.category in db.categories && db.categories[req.category].user == u
    && (on || db.categories[req.category].kind != Date)
    && (if on then IsBlob(req.name) && req.index.Some? && IsIndex(req.index.value)
        else !IsReserved(TitleCase(env.alphabet, req.name)))
    && (req.parent.Some? ==>
          var p := req.parent.value;
          p != id && p in db.tags && db.tags[p].parent == None && db.tags[p].key.category == req.category)
  }

  // The row of a tag is what the request says
  ghost predicate AsRequested(env: Env, on: bool, u: UserId, tag: Tag, req: TagRequest) {
    && tag.parent == req.parent && tag.key.category == req.category
    && SaysName(env, on, u, tag.key.name, req.name) && KeepsIndex(on, tag.key.index, req.index)
  }

  ghost predicate TagCreated(env: Env, db: Db, next: Db, u: UserId, id: Id, req: TagRequest) {
    && next == db.(tags := next.tags) && next.tags.Keys == db.tags.Keys + {id}
    && (forall t | t in db.tags :: next.tags[t] == db.tags[t])
    && AsRequested(env, E2ee(db, u), u, next.tags[id], req)
  }

  lemma FitsIsAccepted(env: Env, db: Db, u: UserId, id: Id, req: TagRequest)
    ensures Fits(env, db, u, id, req) <==> TagAccepted(env, db, u, id, req)
  {
    hide TitleCase, IsBlob, IsReserved, IsIndex;
  }

  lemma StoredAsRequested(env: Env, db: Db, u: UserId, req: TagRequest, tag: Tag)
    requires Sound(env.cipher) && NameToStore(env, db, u, req.name).Some?
    ensures AsRequested(env, E2ee(db, u), u, tag, req) <==> tag == StoredTag(env, db, u, req)
  {
    EncSays(env, u, req.name);
    hide TitleCase, IsBlob, IsReserved, AtRest;
    if AsRequested(env, E2ee(db, u), u, tag, req) {
      SayingIsOne(env, E2ee(db, u), u, tag.key.name, NameToStore(env, db, u, req.name).value, req.name);
    }
  }

  // A create is refused, or would repeat a name or an index of its category, or adds the tag
  // as requested and nothing else
  lemma CreateTagDoes(env: Env, db: Db, u: UserId, id: Id, req: TagRequest)
    requires Sound(env.cipher) && id !in db.tags
    ensures var (next, outcome) := CreateTag(env, db, u, id, req);
            && (outcome == BadRequest <==> !Fits(env, db, u, req.sentId, req))
            && (outcome == NameTaken <==>
                  Fits(env, db, u, req.sentId, req)
                  && exists would :: TagCreated(env, db, would, u, id, req) && !TagNamesUnique(would.tags))
            && outcome in {BadRequest, NameTaken, Done(id)}
            && (outcome.Done? ==> TagCreated(env, db, next, u, id, req) && TagNamesUnique(next.tags))
            && (!outcome.Done? ==> next == db)
  {
    FitsIsAccepted(env, db, u, req.sentId, req);
    hide Fits, TagNamesUnique, AsRequested, NameToStore, IndexAccepted, ParentAccepted, OwnsCategory;
    if TagAccepted(env, db, u, req.sentId, req) {
      var tag := StoredTag(env, db, u, req);
      StoredAsRequested(env, db, u, req, tag);
      var made := db.(tags := db.tags[id := tag]);
      assert TagCreated(env, db, made, u, id, req);
      forall would | TagCreated(env, db, would, u, id, req)
        ensures would == made
      {
        StoredAsRequested(env, db, u, req, would.tags[id]);
        assert would.tags == made.tags;
      }
    }
  }

  // A tag that follows its main tag into the category of the request
  predicate Follows(tag: Tag, id: Id, req: TagRequest) {
    tag.parent == Some(id) && req.parent == None
  }

  // Which memberships stand after an update: those of other tags; those of a main tag in groups
  // of its new category; and those a new synonym hands over
  predicate MemberAfter(db: Db, id: Id, req: TagRequest, m: Membership) {
    var had := Membership(m.group, id) in db.members && m.group in db.groups
               && db.groups[m.group].category == req.category;
    || (m.tag != id && m in db.members && m.group in db.groups)
    || (m.tag == id && req.parent == None && had)
    || (req.parent == Some(m.tag) && had)
  }

  ghost predicate TagUpdated(env: Env, db: Db, next: Db, u: UserId, id: Id, req: TagRequest) {
    && next == db.(tags := next.tags, members := next.members) && next.tags.Keys == db.tags.Keys && id in db.tags
    && AsRequested(env, E2ee(db, u), u, next.tags[id], req)
    && (forall t | t in db.tags && t != id :: next.tags[t] ==
          if Follows(db.tags[t], id, req) then Tag(db.tags[t].key.(category := req.category), db.tags[t].parent)
          else db.tags[t])
    && (forall m :: m in next.members <==> MemberAfter(db, id, req, m))
  }

  lemma RegroupedMembers(db: Db, id: Id, req: TagRequest, tag: Tag)
    requires tag.parent == req.parent && tag.key.category == req.category && req.parent != Some(id)
    ensures forall m :: m in Regroup(db.groups, db.members, id, tag) <==> MemberAfter(db, id, req, m)
  {
    var after := Regroup(db.groups, db.members, id, tag);
    forall m
      ensures m in after <==> MemberAfter(db, id, req, m)
    {
      if MemberAfter(db, id, req, m) {
        var from := if m.tag != id && m in db.members && m.group in db.groups then m else Membership(m.group, id);
        assert from in db.members && from.group in db.groups;
      }
    }
  }

  lemma RetaggedIsUpdated(env: Env, db: Db, u: UserId, id: Id, req: TagRequest, would: Db)
    requires Sound(env.cipher) && id in db.tags && req.parent != Some(id) && NameToStore(env, db, u, req.name).Some?
    ensures var tag := StoredTag(env, db, u, req);
            TagUpdated(env, db, would, u, id, req)
            <==> would == db.(tags := Retag(db.tags, id, tag), members := Regroup(db.groups, db.members, id, tag))
  {
    var tag := StoredTag(env, db, u, req);
    RegroupedMembers(db, id, req, tag);
    StoredAsRequested(env, db, u, req, tag);
    hide NameToStore, IndexToStore, AsRequested, Regroup, MemberAfter;
    if TagUpdated(env, db, would, u, id, req) {
      StoredAsRequested(env, db, u, req, would.tags[id]);
      assert would.tags == Retag(db.tags, id, tag);
      assert would.members == Regroup(db.groups, db.members, id, tag);
    }
  }

  // An update of a tag not the user's is refused, one of a date tag forbidden without E2EE, a
  // synonym of a tag with synonyms refused; or it would repeat a name or an index; or the tag
  // is as requested, with its synonyms and memberships, and nothing else changes
  lemma UpdateTagDoes(env: Env, db: Db, u: UserId, id: Id, req: TagRequest)
    requires Sound(env.cipher)
    ensures var (next, outcome) := UpdateTag(env, db, u, id, req);
            var own := id in db.tags && OwnsCategory(db, u, db.tags[id].key.category);
            var dates := own && !E2ee(db, u) && db.categories[db.tags[id].key.category].kind == Date;
            var nests := req.parent.Some? && exists t | t in db.tags :: db.tags[t].parent == Some(id);
            && (outcome == Forbidden <==> dates)
            && (outcome == BadRequest <==> !dates && (!own || nests || !Fits(env, db, u, id, req)))
            && (outcome == NameTaken <==>
                  own && !dates && !nests && Fits(env, db, u, id, req)
                  && exists would :: TagUpdated(env, db, would, u, id, req) && !TagNamesUnique(would.tags))
            && outcome in {Forbidden, BadRequest, NameTaken, Done(id)}
            && (outcome.Done? ==> TagUpdated(env, db, next, u, id, req) && TagNamesUnique(next.tags))
            && (!outcome.Done? ==> next == db)
  {
    FitsIsAccepted(env, db, u, id, req);
    if TagAccepted(env, db, u, id, req) && id in db.tags {
      var tag := StoredTag(env, db, u, req);
      var made := db.(tags := Retag(db.tags, id, tag), members := Regroup(db.groups, db.members, id, tag));
      RetaggedIsUpdated(env, db, u, id, req, made);
      forall would
        ensures TagUpdated(env, db, would, u, id, req) ==> would == made
      {
        RetaggedIsUpdated(env, db, u, id, req, would);
      }
      assert TagUpdated(env, db, made, u, id, req);
    }
    hide Fits, TagNamesUnique, AsRequested, NameToStore, IndexAccepted, ParentAccepted, Retag, Regroup, TagUpdated;
  }

  // Whether a tag goes when another is deleted: it does itself, and its synonyms do
  predicate GoesWith(tags: map<Id, Tag>, id: Id, t: Id)
    requires t in tags
  {
    t == id || tags[t].parent == Some(id)
  }

  // Whether an event goes with a deleted main tag: it carries it or one of its synonyms
  ghost predicate CarriesGroup(db: Db, id: Id, e: Id) {
    exists l | l in db.links :: l.event == e && l.tag in db.tags && GoesWith(db.tags, id, l.tag)
  }

  // The links of surviving events and tags, those of a deleted synonym with its main tag
  predicate LinkAfter(db: Db, next: Db, id: Id, l: Link)
    requires id in db.tags
  {
    && l.tag in next.tags && l.event in next.events
    && (l in db.links || (db.tags[id].parent == Some(l.tag) && Link(id, l.event, l.user) in db.links))
  }

  ghost predicate TagDeleted(db: Db, next: Db, id: Id, deleteEvents: bool)
    requires id in db.tags
  {
    var parent := db.tags[id].parent;
    && next.users == db.users && next.categories == db.categories && next.groups == db.groups
    && (forall t :: t in next.tags <==> t in db.tags && !GoesWith(db.tags, id, t))
    && (forall t | t in next.tags :: next.tags[t] == db.tags[t])
    && (forall m :: m in next.members <==> m in db.members && m.tag in next.tags)
    && (forall e :: e in next.events <==>
          e in db.events && !(deleteEvents && parent.None? && CarriesGroup(db, id, e)))
    && (forall e | e in next.events :: next.events[e] == db.events[e])
    && (forall l :: l in next.links <==> LinkAfter(db, next, id, l))
  }

  lemma GroupOfMain(db: Db, id: Id)
    requires TagsOk(db.categories, db.tags) && id in db.tags
    ensures forall t :: t in {id} + SynonymsOf(db.tags, {id}) <==> t in db.tags && GoesWith(db.tags, id, t)
    ensures db.tags[id].parent.None? ==>
              forall t :: t in SynonymGroup(db.tags, id) <==> t in db.tags && GoesWith(db.tags, id, t)
  {
    hide TagsOk;
  }

  // An event carries the tags of its own user only
  lemma CarriedIsOwn(db: Db, u: UserId, id: Id, l: Link)
    requires TagsOk(db.categories, db.tags) && LinksOk(db.categories, db.tags, db.events, db.links)
    requires OwnsTag(db.categories, db.tags, u, id) && l in db.links && l.tag in db.tags && GoesWith(db.tags, id, l.tag)
    ensures l.event in db.events && db.events[l.event].user == u
  {
    assert ParentOk(db.tags, l.tag);
  }

  lemma DoomedCarry(db: Db, u: UserId, id: Id, e: Id)
    requires TagsOk(db.categories, db.tags) && LinksOk(db.categories, db.tags, db.events, db.links)
    requires OwnsTag(db.categories, db.tags, u, id) && db.tags[id].parent.None?
    ensures e in EventsOf(db.events, u) * EventsTagged(db.links, SynonymGroup(db.tags, id)) <==>
              e in db.events && CarriesGroup(db, id, e)
  {
    GroupOfMain(db, id);
    hide TagsOk, LinksOk, SynonymGroup, GoesWith, OwnsTag;
    if CarriesGroup(db, id, e) {
      var l :| l in db.links && l.event == e && l.tag in db.tags && GoesWith(db.tags, id, l.tag);
      CarriedIsOwn(db, u, id, l);
    }
  }

  // What the deletion of one tag leaves, by its cascades
  ghost predicate OneTagGone(db: Db, next: Db, id: Id) {
    && next == db.(tags := next.tags, members := next.members, links := next.links)
    && (forall t :: t in next.tags <==> t in db.tags && !GoesWith(db.tags, id, t))
    && (forall t | t in next.tags :: next.tags[t] == db.tags[t])
    && (forall m :: m in next.members <==> m in db.members && m.tag in next.tags)
    && (forall l :: l in next.links <==> l in db.links && l.tag in next.tags)
  }

  lemma DeletedTagIsGone(db: Db, id: Id)
    requires (forall m | m in db.members :: m.tag in db.tags) && (forall l | l in db.links :: l.tag in db.tags)
    ensures OneTagGone(db, DeleteTags(db, {id}), id)
  {
  }

  lemma NothingDangles(db: Db)
    requires Aggregate(db)
    ensures (forall m | m in db.members :: m.tag in db.tags) && (forall l | l in db.links :: l.tag in db.tags)
    ensures forall l | l in db.links :: l.event in db.events
  {
    hide CategoriesOk, DefaultsOk, TagsOk, TagNamesUnique, GroupsOk, KeysUnique, EventsOk;
  }

  lemma RepointedAre(db: Db, id: Id)
    requires TagsOk(db.categories, db.tags) && id in db.tags && db.tags[id].parent.Some?
    ensures forall l :: l in Repoint(db.links, id, db.tags[id].parent.value)
                        <==> l.tag != id && (l in db.links || (db.tags[id].parent == Some(l.tag)
                                                               && Link(id, l.event, l.user) in db.links))
    ensures db.tags[id].parent.value in db.tags
  {
    assert ParentOk(db.tags, id);
    forall l
      ensures l in Repoint(db.links, id, db.tags[id].parent.value)
              <==> l.tag != id && (l in db.links || (db.tags[id].parent == Some(l.tag)
                                                     && Link(id, l.event, l.user) in db.links))
    {
      RepointedLinks(db.links, id, db.tags[id].parent.value, l);
    }
    hide Repoint, TagsOk;
  }

  lemma SynonymDeleted(db: Db, id: Id, deleteEvents: bool)
    requires Aggregate(db) && id in db.tags && db.tags[id].parent.Some?
    ensures TagDeleted(db, DeleteTags(db.(links := Repoint(db.links, id, db.tags[id].parent.value)), {id}), id,
                deleteEvents)
  {
    hide CategoriesOk, DefaultsOk, TagsOk, TagNamesUnique, GroupsOk, KeysUnique, MembersOk, EventsOk, LinksOk, Repoint,
      DeleteTags, CarriesGroup, GoesWith;
    var relinked := db.(links := Repoint(db.links, id, db.tags[id].parent.value));
    NothingDangles(db);
    RepointedAre(db, id);
    RemainingTags(db, id);
    DeletedTagIsGone(relinked, id);
    var next := DeleteTags(relinked, {id});
    forall l
      ensures l in next.links <==> LinkAfter(db, next, id, l)
    {
      assert l in next.links <==> l in relinked.links && l.tag in next.tags;
    }
    hide LinkAfter;
  }

  // A synonym has no synonyms of its own
  lemma RemainingTags(db: Db, id: Id)
    requires Aggregate(db) && id in db.tags && db.tags[id].parent.Some?
    ensures forall t | t in db.tags :: GoesWith(db.tags, id, t) <==> t == id
  {
    forall t | t in db.tags
      ensures GoesWith(db.tags, id, t) <==> t == id
    {
      if db.tags[t].parent.Some? {
        assert ParentOk(db.tags, t);
      }
    }
  }

  lemma RestAfter(db: Db, doomed: set<Id>, deleteEvents: bool, rest: Db)
    requires rest == (if deleteEvents then DeleteEvents(db, doomed) else db)
    requires forall l | l in db.links :: l.event in db.events
    ensures rest == db.(events := rest.events, links := rest.links)
    ensures forall e :: e in rest.events <==> e in db.events && !(deleteEvents && e in doomed)
    ensures forall e | e in rest.events :: rest.events[e] == db.events[e]
    ensures forall l :: l in rest.links <==> l in db.links && l.event in rest.events
  {
  }

  lemma MainDeleted(db: Db, u: UserId, id: Id, deleteEvents: bool)
    requires Aggregate(db) && OwnsTag(db.categories, db.tags, u, id) && db.tags[id].parent.None?
    ensures var doomed := EventsOf(db.events, u) * EventsTagged(db.links, SynonymGroup(db.tags, id));
            TagDeleted(db, DeleteTags(if deleteEvents then DeleteEvents(db, doomed) else db, {id}), id, deleteEvents)
  {
    hide CategoriesOk, DefaultsOk, TagsOk, TagNamesUnique, GroupsOk, KeysUnique, MembersOk, EventsOk, LinksOk, EventsOf,
      EventsTagged, SynonymGroup, DeleteTags, CarriesGroup, GoesWith, DeleteEvents;
    var doomed := EventsOf(db.events, u) * EventsTagged(db.links, SynonymGroup(db.tags, id));
    NothingDangles(db);
    forall e
      ensures e in doomed <==> e in db.events && CarriesGroup(db, id, e)
    {
      DoomedCarry(db, u, id, e);
    }
    assert id in db.tags;
    hide OwnsTag, Aggregate;
    var rest := if deleteEvents then DeleteEvents(db, doomed) else db;
    RestAfter(db, doomed, deleteEvents, rest);
    DeletedTagIsGone(rest, id);
  }

  // A tag not the user's is refused, and a date tag forbidden without E2EE; else a synonym
  // leaves its events to its main tag, and a main tag goes with its synonyms, and with the
  // events carrying any of them if asked
  lemma DeleteTagDoes(db: Db, u: UserId, id: Id, deleteEvents: bool)
    requires Aggregate(db)
    ensures var (next, outcome) := DeleteTag(db, u, id, deleteEvents);
            var own := id in db.tags && OwnsCategory(db, u, db.tags[id].key.category);
            var dates := own && !E2ee(db, u) && db.categories[db.tags[id].key.category].kind == Date;
            && outcome == (if !own then BadRequest else if dates then Forbidden else Done(id))
            && (outcome.Done? ==> TagDeleted(db, next, id, deleteEvents))
            && (!outcome.Done? ==> next == db)
  {
    if OwnsTag(db.categories, db.tags, u, id) {
      hide Aggregate, TagDeleted, EventsOf, EventsTagged, SynonymGroup, DeleteTags, DeleteEvents, Repoint;
      if db.tags[id].parent.Some? {
        SynonymDeleted(db, id, deleteEvents);
      } else {
        MainDeleted(db, u, id, deleteEvents);
      }
    }
  }
}
