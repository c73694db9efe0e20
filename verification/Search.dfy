/** Searching events by names, through the synonyms of tags. */
module Search {
  import opened Collections
  import opened Options
  import opened Encryption
  import opened Text
  import opened Catalog
  import opened CatalogModes
  import DateTags

  // The column a search compares: the blind index under E2EE, the ciphertext otherwise
  function Column(on: bool, key: Key): Option<string> {
    if on then key.index else Some(key.name)
  }

  // ---- The query ----

  // A row of the join: a link of the event, and a tag of the user in the synonym group of the
  // linked one that bears the name
  predicate Joined(db: Db, u: UserId, e: Id, name: string, l: Link, named: Id) {
    && l in db.links && l.event == e && l.user == u
    && l.tag in db.tags && named in db.tags
    && Root(db.tags, named) == Root(db.tags, l.tag)
    && OwnsTag(db.categories, db.tags, u, named)
    && Column(E2ee(db, u), db.tags[named].key) == Some(name)
  }

  ghost predicate Hits(db: Db, u: UserId, e: Id, name: string) {
    exists l, named :: Joined(db, u, e, name, l, named)
  }

  // The distinct names the rows of an event's group match
  ghost function MatchedNames(db: Db, u: UserId, e: Id, names: seq<string>): set<string> {
    set name | name in names && Hits(db, u, e, name)
  }

  // An event passes the filter when its group counts as many distinct names as were asked for
  ghost predicate Found(db: Db, u: UserId, names: seq<string>, e: Id) {
    && e in db.events && db.events[e].user == u
    && (names != [] ==> |MatchedNames(db, u, e, names)| == |names|)
  }

  ghost predicate HitsAll(db: Db, u: UserId, names: seq<string>, e: Id) {
    forall name | name in names :: Hits(db, u, e, name)
  }

  // Counting distinct names tells whether every name is hit, provided no name is repeated
  // (a repeated name makes the filter refuse every event)
  lemma CountingMeansAll(db: Db, u: UserId, names: seq<string>, e: Id)
    requires names != []
    ensures Found(db, u, names, e)
            <==> e in db.events && db.events[e].user == u && Distinct(names) && HitsAll(db, u, names, e)
  {
    var asked := set n | n in names;
    var matched := MatchedNames(db, u, e, names);
    DistinctCount(names);
    assert matched <= asked;
    SubsetSize(matched, asked);
    hide Hits, Distinct;
    if HitsAll(db, u, names, e) {
      assert matched == asked;
    }
    if matched == asked {
      forall name | name in names
        ensures Hits(db, u, e, name)
      {
        assert name in matched;
      }
    }
  }

  // ---- The service ----

  function Dedupe(names: seq<string>): (r: seq<string>)
    ensures Distinct(r) && forall n :: n in r <==> n in names
    decreases |names|
  {
    if names == [] then []
    else
      var rest := Dedupe(names[..|names| - 1]);
      var last := names[|names| - 1];
      assert names == names[..|names| - 1] + [last];
      if last in rest then rest else rest + [last]
  }

  // What is looked for in the column for a requested name
  function Term(env: Env, on: bool, u: UserId, asked: string): string {
    if on then asked else env.cipher.enc(u, TitleCase(env.alphabet, asked))
  }

  function Normalised(env: Env, on: bool, asked: seq<string>): seq<string> {
    seq(|asked|, i requires 0 <= i < |asked| => if on then asked[i] else TitleCase(env.alphabet, asked[i]))
  }

  function Encrypted(env: Env, on: bool, u: UserId, names: seq<string>): seq<string> {
    seq(|names|, i requires 0 <= i < |names| => if on then names[i] else env.cipher.enc(u, names[i]))
  }

  // E2EE clients search by blind index only
  predicate QueryAccepted(on: bool, asked: seq<string>) {
    on ==> forall q | q in asked :: IsIndex(q)
  }

  function Terms(env: Env, on: bool, u: UserId, asked: seq<string>): seq<string> {
    Encrypted(env, on, u, Dedupe(Normalised(env, on, asked)))
  }

  lemma NoTerms(env: Env, on: bool, u: UserId)
    ensures Dedupe(Normalised(env, on, [])) == [] && Terms(env, on, u, []) == []
  {
  }

  lemma OneMoreTerm(env: Env, on: bool, u: UserId, asked: seq<string>, i: nat)
    requires i < |asked|
    ensures var before := Dedupe(Normalised(env, on, asked[..i]));
            var name := if on then asked[i] else TitleCase(env.alphabet, asked[i]);
            && Dedupe(Normalised(env, on, asked[..i + 1])) == (if name in before then before else before + [name])
            && Terms(env, on, u, asked[..i + 1])
               == (if name in before then Terms(env, on, u, asked[..i])
                   else Terms(env, on, u, asked[..i]) + [if on then name else env.cipher.enc(u, name)])
  {
    hide TitleCase;
    var before, after := Normalised(env, on, asked[..i]), Normalised(env, on, asked[..i + 1]);
    assert after[..i] == before;
    assert Dedupe(after) == if after[i] in Dedupe(before) then Dedupe(before) else Dedupe(before) + [after[i]];
  }

  lemma TermsAreDistinct(env: Env, on: bool, u: UserId, asked: seq<string>)
    requires Sound(env.cipher)
    ensures Distinct(Terms(env, on, u, asked))
    ensures forall t :: t in Terms(env, on, u, asked) <==> exists q | q in asked :: t == Term(env, on, u, q)
  {
    var normal := Normalised(env, on, asked);
    var names := Dedupe(normal);
    var terms := Terms(env, on, u, asked);
    hide TitleCase, Dedupe;
    forall i, j | 0 <= i < j < |terms|
      ensures terms[i] != terms[j]
    {
      if !on && terms[i] == terms[j] {
        EncIsInjective(env.cipher, u, names[i], names[j]);
      }
    }
    forall t
      ensures t in terms <==> exists q | q in asked :: t == Term(env, on, u, q)
    {
      TermOfQuery(env, on, u, asked, t);
    }
  }

  lemma TermOfQuery(env: Env, on: bool, u: UserId, asked: seq<string>, t: string)
    ensures t in Terms(env, on, u, asked) <==> exists q | q in asked :: t == Term(env, on, u, q)
  {
    var normal := Normalised(env, on, asked);
    var names := Dedupe(normal);
    hide TitleCase, Dedupe;
    if t in Terms(env, on, u, asked) {
      var i :| 0 <= i < |names| && Terms(env, on, u, asked)[i] == t;
      assert names[i] in normal;
      var k :| 0 <= k < |normal| && normal[k] == names[i];
      assert asked[k] in asked && t == Term(env, on, u, asked[k]);
    }
    if q :| q in asked && t == Term(env, on, u, q) {
      var k :| 0 <= k < |asked| && asked[k] == q;
      assert normal[k] in names;
      var i :| 0 <= i < |names| && names[i] == normal[k];
      assert Terms(env, on, u, asked)[i] == t;
    }
  }

  // The tag is named so: by its text, or by its blind index under E2EE
  ghost predicate IsNamed(env: Env, db: Db, u: UserId, t: Id, asked: string) {
    && OwnsTag(db.categories, db.tags, u, t)
    && if E2ee(db, u) then db.tags[t].key.index == Some(asked)
       else env.cipher.dec(u, db.tags[t].key.name) == Some(TitleCase(env.alphabet, asked))
  }

  // One of the event's tags is in the synonym group of a tag so named
  ghost predicate CarriesName(env: Env, db: Db, u: UserId, e: Id, asked: string) {
    exists l, t :: l in db.links && l.event == e && l.user == u && l.tag in db.tags
                   && IsNamed(env, db, u, t, asked) && Root(db.tags, t) == Root(db.tags, l.tag)
  }

  lemma HitsIsCarries(env: Env, db: Db, u: UserId, e: Id, asked: string)
    requires Sound(env.cipher) && Modes(env.cipher, db)
    ensures Hits(db, u, e, Term(env, E2ee(db, u), u, asked)) <==> CarriesName(env, db, u, e, asked)
  {
    var term := Term(env, E2ee(db, u), u, asked);
    hide TitleCase;
    forall t
      ensures IsNamed(env, db, u, t, asked)
              <==> OwnsTag(db.categories, db.tags, u, t) && Column(E2ee(db, u), db.tags[t].key) == Some(term)
    {
      if OwnsTag(db.categories, db.tags, u, t) && !E2ee(db, u) {
        assert OwnerMode(env.cipher, db.users, db.categories, db.tags[t].key);
        EncIsAtRest(env.cipher, u, TitleCase(env.alphabet, asked));
      }
    }
    hide Sound, Modes, IsNamed, OwnsTag, Column, Term;
    if Hits(db, u, e, term) {
      var l, t :| Joined(db, u, e, term, l, t);
      assert IsNamed(env, db, u, t, asked);
    }
    if CarriesName(env, db, u, e, asked) {
      var l, t :| l in db.links && l.event == e && l.user == u && l.tag in db.tags
                  && IsNamed(env, db, u, t, asked) && Root(db.tags, t) == Root(db.tags, l.tag);
      assert Joined(db, u, e, term, l, t);
    }
  }

  // A search returns an event exactly when, for every requested name, whatever its spelling
  // and however often it is repeated, one of the event's tags shares a synonym group with a
  // tag of that name
  lemma SearchFindsWhatItMeans(env: Env, db: Db, u: UserId, asked: seq<string>, e: Id)
    requires Sound(env.cipher) && Modes(env.cipher, db)
    ensures Found(db, u, Terms(env, E2ee(db, u), u, asked), e)
            <==> e in db.events && db.events[e].user == u && forall q | q in asked :: CarriesName(env, db, u, e, q)
  {
    var on := E2ee(db, u);
    var terms := Terms(env, on, u, asked);
    TermsAreDistinct(env, on, u, asked);
    hide Sound, Modes, TitleCase, Terms, Hits, CarriesName, MatchedNames, E2ee, Term, Distinct;
    forall q | q in asked
      ensures Term(env, on, u, q) in terms
      ensures Hits(db, u, e, Term(env, on, u, q)) <==> CarriesName(env, db, u, e, q)
    {
      HitsIsCarries(env, db, u, e, q);
    }
    if terms != [] {
      CountingMeansAll(db, u, terms, e);
    } else if asked != [] {
      assert asked[0] in asked;
    }
  }

  // ---- The timeline ----

  // Most recent first, latest created first on the same day
  predicate Newer(events: map<Id, Event>, a: Id, b: Id)
    requires a in events && b in events
  {
    || DateTags.Before(events[b].period.start, events[a].period.start)
    || (events[a].period.start == events[b].period.start && a > b)
  }

  lemma NewerIsTransitive(events: map<Id, Event>, a: Id, b: Id, c: Id)
    requires a in events && b in events && c in events && Newer(events, a, b) && Newer(events, b, c)
    ensures Newer(events, a, c)
  {
  }

  lemma NewerIsTotal(events: map<Id, Event>, a: Id, b: Id)
    requires a in events && b in events && a != b
    ensures Newer(events, a, b) || Newer(events, b, a)
  {
  }

  predicate Newest(events: map<Id, Event>, ids: set<Id>, e: Id)
    requires ids <= events.Keys
  {
    e in ids && forall f | f in ids && f != e :: Newer(events, e, f)
  }

  // Some event of a set is newer than all others of it
  lemma {:induction false} SomeNewest(events: map<Id, Event>, ids: set<Id>)
    requires ids != {} && ids <= events.Keys
    ensures exists e :: Newest(events, ids, e)
    decreases |ids|
  {
    var x :| x in ids;
    var rest := ids - {x};
    assert ids == rest + {x};
    if rest == {} {
      assert Newest(events, ids, x);
    } else {
      SomeNewest(events, rest);
      var e :| Newest(events, rest, e);
      NewerIsTotal(events, x, e);
      if Newer(events, x, e) {
        forall f | f in ids && f != x
          ensures Newer(events, x, f)
        {
          if f != e {
            NewerIsTransitive(events, x, e, f);
          }
        }
        assert Newest(events, ids, x);
      } else {
        assert Newest(events, ids, e);
      }
    }
  }

  predicate IsTimeline(events: map<Id, Event>, ids: seq<Id>) {
    && (forall e | e in ids :: e in events)
    && forall i, j | 0 <= i < j < |ids| :: Newer(events, ids[i], ids[j])
  }

  // No event starts before one listed after it, and of two that start on one day the one
  // created last is listed first
  predicate MostRecentFirst(events: map<Id, Event>, ids: seq<Id>) {
    && (forall e | e in ids :: e in events)
    && forall i, j | 0 <= i < j < |ids| ::
      && !DateTags.Before(events[ids[i]].period.start, events[ids[j]].period.start)
      && (events[ids[i]].period.start == events[ids[j]].period.start ==> ids[i] > ids[j])
  }

  lemma TimelineIsMostRecentFirst(events: map<Id, Event>, ids: seq<Id>)
    ensures IsTimeline(events, ids) <==> MostRecentFirst(events, ids)
  {
  }

  lemma NewestFirst(events: map<Id, Event>, ids: seq<Id>, e: Id)
    requires IsTimeline(events, ids) && e in ids && e != ids[0]
    ensures Newer(events, ids[0], e) && !Newer(events, e, ids[0])
  {
    var i :| 0 <= i < |ids| && ids[i] == e;
  }

  lemma SomeMember(ids: seq<Id>)
    ensures ids != [] ==> exists e :: e in ids
  {
    if ids != [] {
      assert ids[0] in ids;
    }
  }

  // There is one such order, whatever order the rows came in
  lemma {:induction false} TimelineIsUnique(events: map<Id, Event>, a: seq<Id>, b: seq<Id>)
    requires IsTimeline(events, a) && IsTimeline(events, b) && forall e :: e in a <==> e in b
    ensures a == b
    decreases |a|
  {
    if a == [] {
      SomeMember(b);
    } else {
      assert a[0] in b && b[0] in a;
      if a[0] != b[0] {
        NewestFirst(events, a, b[0]);
        NewestFirst(events, b, a[0]);
      }
      forall e
        ensures e in a[1..] <==> e in b[1..]
      {
        TailMembers(events, a, e);
        TailMembers(events, b, e);
      }
      TimelineIsUnique(events, a[1..], b[1..]);
    }
  }

  lemma TailMembers(events: map<Id, Event>, ids: seq<Id>, e: Id)
    requires IsTimeline(events, ids) && ids != []
    ensures e in ids[1..] <==> e in ids && e != ids[0]
  {
    if e in ids[1..] {
      var i :| 0 <= i < |ids| - 1 && ids[1..][i] == e;
      assert Newer(events, ids[0], ids[i + 1]);
    }
  }
}
