/**
 The tables of categories, tags, synonyms, tag groups and events, and what every use case
 does to them. A use case is one step: its checks, then its transaction, which is applied
 whole or not at all.
 */
module Catalog {
  import opened Options
  import opened Encryption
  import opened Text
  import DateTags

  type Id = nat

  datatype Kind = Date | Person | Other | Custom

  datatype User = User(e2ee: bool, keyCheck: Option<string>)

  datatype Category = Category(user: UserId, kind: Kind, locked: bool, name: string, clientId: Option<string>)

  // The columns of the two unique keys of tags and of tag groups; an index is unset outside E2EE
  datatype Key = Key(category: Id, name: string, index: Option<string>)

  // A tag with a parent is a synonym of it
  datatype Tag = Tag(key: Key, parent: Option<Id>)

  datatype Membership = Membership(group: Id, tag: Id)

  datatype Event = Event(user: UserId, description: string, period: DateTags.Period, clientId: Option<string>)

  datatype Link = Link(tag: Id, event: Id, user: UserId)

  datatype Db = Db(users: map<UserId, User>, categories: map<Id, Category>, tags: map<Id, Tag>,
                   groups: map<Id, Key>, members: set<Membership>, events: map<Id, Event>, links: set<Link>)

  // How names are encrypted and normalised
  datatype Env = Env(cipher: Cipher, alphabet: Alphabet)

  datatype Outcome =
    | Done(id: Id)
    | Replayed(id: Id)  // an earlier create of the same client id stands
    | BadRequest
    | Forbidden
    | NotFound
    | NameTaken
    | Conflict
    | DuplicateClientId  // the insert met the row of another create
    | Failed

  // ---- The invariant of the aggregate ----

  predicate Clash(a: Key, b: Key) {
    a.category == b.category && (a.name == b.name || (a.index.Some? && a.index == b.index))
  }

  // The unique keys of Tags and of TagGroups
  predicate TagNamesUnique(tags: map<Id, Tag>) {
    forall a, b | a in tags && b in tags && a != b :: !Clash(tags[a].key, tags[b].key)
  }

  predicate KeysUnique(keys: map<Id, Key>) {
    forall a, b | a in keys && b in keys && a != b :: !Clash(keys[a], keys[b])
  }

  // A category has its owner; the dates and the others are locked
  predicate CategoryOk(users: map<UserId, User>, c: Category) {
    c.user in users && (c.locked <==> c.kind.Date? || c.kind.Other?)
  }

  // A user has one category of each kind but custom, and a client id names one category
  predicate Apart(c: Category, d: Category) {
    c.user == d.user ==> (c.kind == d.kind ==> c.kind.Custom?) && (c.clientId == d.clientId ==> c.clientId.None?)
  }

  predicate CategoriesOk(users: map<UserId, User>, categories: map<Id, Category>) {
    && (forall c | c in categories :: CategoryOk(users, categories[c]))
    && (forall c, d | c in categories && d in categories && c != d :: Apart(categories[c], categories[d]))
  }

  predicate HasKind(categories: map<Id, Category>, u: UserId, kind: Kind) {
    exists c | c in categories :: categories[c].user == u && categories[c].kind == kind
  }

  predicate DefaultsOk(users: map<UserId, User>, categories: map<Id, Category>) {
    forall u | u in users :: HasKind(categories, u, Date) && HasKind(categories, u, Other)
  }

  predicate ParentOk(tags: map<Id, Tag>, t: Id)
    requires t in tags
  {
    tags[t].parent.Some? ==>
      && tags[t].parent.value in tags
      && tags[tags[t].parent.value].parent.None?
      && tags[tags[t].parent.value].key.category == tags[t].key.category
  }

  // Synonyms are one level deep and share the category of their main tag
  predicate TagsOk(categories: map<Id, Category>, tags: map<Id, Tag>) {
    && (forall t | t in tags :: tags[t].key.category in categories)
    && (forall t | t in tags :: ParentOk(tags, t))
  }

  predicate GroupsOk(categories: map<Id, Category>, groups: map<Id, Key>) {
    forall g | g in groups :: groups[g].category in categories && !categories[groups[g].category].kind.Date?
  }

  predicate MemberOk(tags: map<Id, Tag>, groups: map<Id, Key>, m: Membership) {
    && m.group in groups && m.tag in tags
    && tags[m.tag].parent.None?
    && tags[m.tag].key.category == groups[m.group].category
  }

  // A group only holds main tags of its own category
  predicate MembersOk(tags: map<Id, Tag>, groups: map<Id, Key>, members: set<Membership>) {
    forall m | m in members :: MemberOk(tags, groups, m)
  }

  // Stored periods are accepted ones, and a period of one day has no end
  predicate PeriodOk(p: DateTags.Period) {
    DateTags.PeriodAccepted(p) && DateTags.Normalised(p) == p
  }

  predicate EventsOk(users: map<UserId, User>, events: map<Id, Event>) {
    && (forall e | e in events :: events[e].user in users && PeriodOk(events[e].period))
    && (forall e, f | e in events && f in events && e != f && events[e].user == events[f].user ::
          events[e].clientId == events[f].clientId ==> events[e].clientId.None?)
  }

  predicate OwnsTag(categories: map<Id, Category>, tags: map<Id, Tag>, u: UserId, t: Id) {
    t in tags && tags[t].key.category in categories && categories[tags[t].key.category].user == u
  }

  // Links never dangle and never cross users
  predicate LinksOk(categories: map<Id, Category>, tags: map<Id, Tag>, events: map<Id, Event>, links: set<Link>) {
    forall l | l in links :: l.event in events && events[l.event].user == l.user
        && OwnsTag(categories, tags, l.user, l.tag)
  }

  predicate Aggregate(db: Db) {
    && CategoriesOk(db.users, db.categories)
    && DefaultsOk(db.users, db.categories)
    && TagsOk(db.categories, db.tags)
    && TagNamesUnique(db.tags)
    && GroupsOk(db.categories, db.groups)
    && KeysUnique(db.groups)
    && MembersOk(db.tags, db.groups, db.members)
    && EventsOk(db.users, db.events)
    && LinksOk(db.categories, db.tags, db.events, db.links)
  }

  // ---- Deletions and their cascades ----

  // The synonym group a tag belongs to is named by its main tag
  function Root(tags: map<Id, Tag>, t: Id): Id
    requires t in tags
  {
    if tags[t].parent.Some? then tags[t].parent.value else t
  }

  function SynonymsOf(tags: map<Id, Tag>, dead: set<Id>): set<Id> {
    set t | t in tags && tags[t].parent.Some? && tags[t].parent.value in dead
  }

  function DropTags(db: Db, dead: set<Id>): Db {
    db.(tags := db.tags - dead,
        members := (set m | m in db.members && m.tag !in dead),
        links := (set l | l in db.links && l.tag !in dead))
  }

  // Deleting tags deletes their synonyms, memberships and links
  function DeleteTags(db: Db, dead: set<Id>): Db {
    DropTags(db, dead + SynonymsOf(db.tags, dead))
  }

  function DeleteGroups(db: Db, dead: set<Id>): Db {
    db.(groups := db.groups - dead,
        members := (set m | m in db.members && m.group !in dead))
  }

  function DeleteEvents(db: Db, dead: set<Id>): Db {
    db.(events := db.events - dead,
        links := (set l | l in db.links && l.event !in dead))
  }

  function TagsIn(tags: map<Id, Tag>, dead: set<Id>): set<Id> {
    set t | t in tags && tags[t].key.category in dead
  }

  function GroupsIn(groups: map<Id, Key>, dead: set<Id>): set<Id> {
    set g | g in groups && groups[g].category in dead
  }

  // Deleting categories deletes their tags and tag groups
  function DeleteCategories(db: Db, dead: set<Id>): Db {
    var rest := DeleteGroups(DeleteTags(db, TagsIn(db.tags, dead)), GroupsIn(db.groups, dead));
    rest.(categories := db.categories - dead)
  }

  // ---- Checks shared by the use cases ----

  predicate OwnsCategory(db: Db, u: UserId, c: Id) {
    c in db.categories && db.categories[c].user == u
  }

  predicate OwnsGroup(db: Db, u: UserId, g: Id) {
    g in db.groups && OwnsCategory(db, u, db.groups[g].category)
  }

  predicate E2ee(db: Db, u: UserId) {
    u in db.users && db.users[u].e2ee
  }

  // The name of a tag or a tag group as it is stored, if it is accepted
  function NameToStore(env: Env, db: Db, u: UserId, name: string): Option<string> {
    if E2ee(db, u) then (if IsBlob(name) then Some(name) else None)
    else
      var normal := TitleCase(env.alphabet, name);
      if IsReserved(normal) then None else Some(env.cipher.enc(u, normal))
  }

  predicate IndexAccepted(db: Db, u: UserId, index: Option<string>) {
    E2ee(db, u) ==> index.Some? && IsIndex(index.value)
  }

  // A stray index from a client without E2EE is dropped
  function IndexToStore(db: Db, u: UserId, index: Option<string>): Option<string> {
    if E2ee(db, u) then index else None
  }

  // ---- Tags ----

  // sentId is whatever id the body of a create carries
  datatype TagRequest = TagRequest(sentId: Id, category: Id, name: string, index: Option<string>, parent: Option<Id>)

  // A parent is another main tag of the user in the same category
  predicate ParentAccepted(db: Db, u: UserId, id: Id, req: TagRequest) {
    req.parent.Some? ==>
      && req.parent.value != id
      && OwnsTag(db.categories, db.tags, u, req.parent.value)
      && db.tags[req.parent.value].parent.None?
      && db.tags[req.parent.value].key.category == req.category
  }

  predicate TagAccepted(env: Env, db: Db, u: UserId, id: Id, req: TagRequest) {
    && OwnsCategory(db, u, req.category)
    && (E2ee(db, u) || !db.categories[req.category].kind.Date?)
    && NameToStore(env, db, u, req.name).Some?
    && IndexAccepted(db, u, req.index)
    && ParentAccepted(db, u, id, req)
  }

  function StoredTag(env: Env, db: Db, u: UserId, req: TagRequest): Tag
    requires NameToStore(env, db, u, req.name).Some?
  {
    Tag(Key(req.category, NameToStore(env, db, u, req.name).value, IndexToStore(db, u, req.index)), req.parent)
  }

  function CreateTag(env: Env, db: Db, u: UserId, id: Id, req: TagRequest): (Db, Outcome) {
    if !TagAccepted(env, db, u, req.sentId, req) then (db, BadRequest)
    else
      var next := db.(tags := db.tags[id := StoredTag(env, db, u, req)]);
      if TagNamesUnique(next.tags) then (next, Done(id)) else (db, NameTaken)
  }

  predicate HasSynonyms(tags: map<Id, Tag>, id: Id) {
    exists t | t in tags :: tags[t].parent == Some(id)
  }

  // A tag of the date category is the server's own, except for E2EE users
  predicate IsServerTag(db: Db, u: UserId, t: Id) {
    !E2ee(db, u) && t in db.tags && db.tags[t].key.category in db.categories
    && db.categories[db.tags[t].key.category].kind.Date?
  }

  // A main tag takes its synonyms along
  function Retag(tags: map<Id, Tag>, id: Id, tag: Tag): map<Id, Tag> {
    map t | t in tags ::
      if t == id then tag
      else if tag.parent.None? && tags[t].parent == Some(id) then
        tags[t].(key := tags[t].key.(category := tag.key.category))
      else tags[t]
  }

  // A new synonym hands its memberships to its main tag; a tag that leaves its category
  // leaves the groups of that category
  function Regroup(groups: map<Id, Key>, members: set<Membership>, id: Id, tag: Tag): set<Membership> {
    set m | m in members && m.group in groups && (m.tag != id || groups[m.group].category == tag.key.category) ::
      if m.tag == id && tag.parent.Some? then Membership(m.group, tag.parent.value) else m
  }

  function UpdateTag(env: Env, db: Db, u: UserId, id: Id, req: TagRequest): (Db, Outcome) {
    if !OwnsTag(db.categories, db.tags, u, id) then (db, BadRequest)
    else if IsServerTag(db, u, id) then (db, Forbidden)
    else if req.parent.Some? && HasSynonyms(db.tags, id) then (db, BadRequest)
    else if !TagAccepted(env, db, u, id, req) then (db, BadRequest)
    else
      var tag := StoredTag(env, db, u, req);
      var next := db.(tags := Retag(db.tags, id, tag), members := Regroup(db.groups, db.members, id, tag));
      if TagNamesUnique(next.tags) then (next, Done(id)) else (db, NameTaken)
  }

  // The events carrying a tag of some set
  function EventsTagged(links: set<Link>, tags: set<Id>): set<Id> {
    set l | l in links && l.tag in tags :: l.event
  }

  function SynonymGroup(tags: map<Id, Tag>, id: Id): set<Id> {
    set t | t in tags && Root(tags, t) == id
  }

  function EventsOf(events: map<Id, Event>, u: UserId): set<Id> {
    set e | e in events && events[e].user == u
  }

  function Repoint(links: set<Link>, from: Id, to: Id): set<Link> {
    set l | l in links :: if l.tag == from then Link(to, l.event, l.user) else l
  }

  // Deleting a synonym hands its events to its main tag; deleting a main tag deletes its
  // synonym group, with the events of the group if asked
  function DeleteTag(db: Db, u: UserId, id: Id, deleteEvents: bool): (Db, Outcome) {
    if !OwnsTag(db.categories, db.tags, u, id) then (db, BadRequest)
    else if IsServerTag(db, u, id) then (db, Forbidden)
    else if db.tags[id].parent.Some? then
      (DeleteTags(db.(links := Repoint(db.links, id, db.tags[id].parent.value)), {id}), Done(id))
    else if deleteEvents then
      var doomed := EventsOf(db.events, u) * EventsTagged(db.links, SynonymGroup(db.tags, id));
      (DeleteTags(DeleteEvents(db, doomed), {id}), Done(id))
    else (DeleteTags(db, {id}), Done(id))
  }

  // ---- Categories ----

  datatype CategoryRequest = CategoryRequest(name: string, clientId: Option<string>)

  ghost predicate CategoryCreated(db: Db, u: UserId, clientId: Option<string>, c: Id) {
    OwnsCategory(db, u, c) && clientId.Some? && db.categories[c].clientId == clientId
  }

  function CategoryName(env: Env, db: Db, u: UserId, name: string): Option<string> {
    if E2ee(db, u) then (if IsBlob(name) then Some(name) else None)
    else Some(env.cipher.enc(u, TitleCase(env.alphabet, name)))
  }

  ghost function CreateCategory(env: Env, db: Db, u: UserId, id: Id, req: CategoryRequest): (Db, Outcome) {
    if exists c :: CategoryCreated(db, u, req.clientId, c) then
      (db, Replayed(var c :| CategoryCreated(db, u, req.clientId, c); c))
    else if CategoryName(env, db, u, req.name).None? then (db, BadRequest)
    else
      (db.(categories := db.categories[id :=
          Category(u, Custom, false, CategoryName(env, db, u, req.name).value, req.clientId)]),
       Done(id))
  }

  function UpdateCategory(env: Env, db: Db, u: UserId, c: Id, name: string): (Db, Outcome) {
    if !OwnsCategory(db, u, c) then (db, NotFound)
    else if db.categories[c].locked then (db, Forbidden)
    else if CategoryName(env, db, u, name).None? then (db, BadRequest)
    else
      (db.(categories := db.categories[c := db.categories[c].(name := CategoryName(env, db, u, name).value)]), Done(c))
  }

  function MoveTags(tags: map<Id, Tag>, from: Id, to: Id): map<Id, Tag> {
    map t | t in tags ::
      if tags[t].key.category == from then tags[t].(key := tags[t].key.(category := to)) else tags[t]
  }

  function MoveGroups(groups: map<Id, Key>, from: Id, to: Id): map<Id, Key> {
    map g | g in groups :: if groups[g].category == from then groups[g].(category := to) else groups[g]
  }

  ghost predicate IsKind(db: Db, u: UserId, kind: Kind, c: Id) {
    OwnsCategory(db, u, c) && db.categories[c].kind == kind
  }

  ghost function CategoryOfKind(db: Db, u: UserId, kind: Kind): Id
    requires HasKind(db.categories, u, kind)
    ensures IsKind(db, u, kind, CategoryOfKind(db, u, kind))
  {
    var c :| c in db.categories && db.categories[c].user == u && db.categories[c].kind == kind;
    c
  }

  // A category goes with its tags moved to the others, with its tags deleted, or with its
  // tags and their events deleted
  ghost function DeleteCategory(db: Db, u: UserId, c: Id, moveTags: bool, deleteEvents: bool): (Db, Outcome) {
    if !OwnsCategory(db, u, c) then (db, NotFound)
    else if db.categories[c].locked then (db, Forbidden)
    else if moveTags then
      if !HasKind(db.categories, u, Other) then (db, Failed)
      else
        var other := CategoryOfKind(db, u, Other);
        var moved := db.(tags := MoveTags(db.tags, c, other), groups := MoveGroups(db.groups, c, other));
        if TagNamesUnique(moved.tags) && KeysUnique(moved.groups) then (DeleteCategories(moved, {c}), Done(c))
        else (db, NameTaken)
    else if deleteEvents then
      var doomed := EventsOf(db.events, u) * EventsTagged(db.links, TagsIn(db.tags, {c}));
      (DeleteCategories(DeleteEvents(db, doomed), {c}), Done(c))
    else (DeleteCategories(db, {c}), Done(c))
  }

  // ---- Tag groups ----

  datatype GroupRequest = GroupRequest(name: string, index: Option<string>, members: seq<Id>)

  predicate GroupAccepted(env: Env, db: Db, u: UserId, c: Id, req: GroupRequest) {
    && OwnsCategory(db, u, c) && !db.categories[c].kind.Date?
    && req.members != []
    && (forall t | t in req.members :: t in db.tags && db.tags[t].parent.None? && db.tags[t].key.category == c)
    && NameToStore(env, db, u, req.name).Some?
    && IndexAccepted(db, u, req.index)
  }

  function StoredGroup(env: Env, db: Db, u: UserId, c: Id, req: GroupRequest): Key
    requires NameToStore(env, db, u, req.name).Some?
  {
    Key(c, NameToStore(env, db, u, req.name).value, IndexToStore(db, u, req.index))
  }

  function PutGroup(db: Db, g: Id, key: Key, members: seq<Id>): Db {
    db.(groups := db.groups[g := key],
        members := (set m | m in db.members && m.group != g) + (set t | t in members :: Membership(g, t)))
  }

  function CreateGroup(env: Env, db: Db, u: UserId, id: Id, c: Id, req: GroupRequest): (Db, Outcome) {
    if !GroupAccepted(env, db, u, c, req) then (db, BadRequest)
    else
      var next := PutGroup(db, id, StoredGroup(env, db, u, c, req), req.members);
      if KeysUnique(next.groups) then (next, Done(id)) else (db, NameTaken)
  }

  function UpdateGroup(env: Env, db: Db, u: UserId, g: Id, req: GroupRequest): (Db, Outcome) {
    if !OwnsGroup(db, u, g) || !GroupAccepted(env, db, u, db.groups[g].category, req) then (db, BadRequest)
    else
      var next := PutGroup(db, g, StoredGroup(env, db, u, db.groups[g].category, req), req.members);
      if KeysUnique(next.groups) then (next, Done(g)) else (db, NameTaken)
  }

  function DeleteGroup(db: Db, u: UserId, g: Id): (Db, Outcome) {
    if !OwnsGroup(db, u, g) then (db, NotFound) else (DeleteGroups(db, {g}), Done(g))
  }

  // ---- Users ----

  // The categories every user starts with
  function Seeds(env: Env, u: UserId, dates: Id, persons: Id, others: Id): (seeds: map<Id, Category>)
    ensures seeds.Keys == {dates, persons, others}
  {
    map[dates := Category(u, Date, true, env.cipher.enc(u, "Dates"), None),
        persons := Category(u, Person, false, env.cipher.enc(u, "Persons"), None),
        others := Category(u, Other, true, env.cipher.enc(u, "Others"), None)]
  }

  function Register(env: Env, db: Db, u: UserId, dates: Id, persons: Id, others: Id): (Db, Outcome) {
    (db.(users := db.users[u := User(false, None)],
         categories := db.categories + Seeds(env, u, dates, persons, others)), Done(u))
  }

  function CategoriesOf(categories: map<Id, Category>, u: UserId): set<Id> {
    set c | c in categories && categories[c].user == u
  }

  // The lost-key purge: everything the user stored goes, and the account starts afresh
  function Purge(env: Env, db: Db, u: UserId, dates: Id, persons: Id, others: Id): (Db, Outcome) {
    if !E2ee(db, u) then (db, Conflict)
    else
      var bare := DeleteCategories(DeleteEvents(db, EventsOf(db.events, u)), CategoriesOf(db.categories, u));
      Register(env, bare, u, dates, persons, others)
  }
}
