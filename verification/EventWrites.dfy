/** Event use cases as they run: the derivation of date tags, the write of an event, and the search. */
module EventWrites {
  import opened Collections
  import opened Options
  import opened Encryption
  import opened Text
  import opened Catalog
  import opened CatalogEvents
  import DateTags
  import Search

  // Deduplicated ids, so that counting owned rows is checking each id
  method CheckTagsBelongToUser(db: Db, tagsId: seq<Id>, u: UserId) returns (ok: bool)
    ensures ok <==> forall t | t in tagsId :: OwnsTag(db.categories, db.tags, u, t)
  {
    if |tagsId| == 0 {
      return true;
    }
    var ids := set t | t in tagsId;
    var owned := set t | t in db.tags && t in ids && OwnsTag(db.categories, db.tags, u, t);
    ok := |owned| == |ids|;
    SubsetSize(owned, ids);
    assert owned == ids <==> forall t | t in tagsId :: OwnsTag(db.categories, db.tags, u, t) by {
      if owned == ids {
        forall t | t in tagsId
          ensures OwnsTag(db.categories, db.tags, u, t)
        {
          assert t in owned;
        }
      }
    }
  }

  // SELECT the tag of that name in the category
  method FindTagId(tags: map<Id, Tag>, category: Id, name: string) returns (found: Option<Id>)
    requires TagNamesUnique(tags)
    ensures found == FindTag(tags, category, name)
  {
    if t :| t in tags && Bears(tags, category, name, t) {
      OneRowPerName(tags, category, name, t, FindTag(tags, category, name).value);
      return Some(t);
    }
    return None;
  }

  // SELECT the user's category of dates
  method TheDates(db: Db, u: UserId) returns (dates: Id)
    requires Aggregate(db) && HasKind(db.categories, u, Date)
    ensures dates == CategoryOfKind(db, u, Date)
  {
    dates :| dates in db.categories && db.categories[dates].user == u && db.categories[dates].kind == Date;
    DatesIsOne(db, u, dates);
  }

  // Look every name up, and note the ones to be made
  method BuildDateTagList(env: Env, db: Db, u: UserId, names: seq<string>) returns (list: seq<DateTag>)
    requires Aggregate(db) && HasKind(db.categories, u, Date)
    ensures list == BuildDateTags(env, db, u, names)
  {
    hide CategoriesOk, DefaultsOk, TagsOk, GroupsOk, MembersOk, EventsOk, LinksOk, KeysUnique, TagNamesUnique,
      FindTag, HasKind;
    var dates := TheDates(db, u);
    list := [];
    for i := 0 to |names|
      invariant |list| == i && forall j | 0 <= j < i :: list[j] == LookUp(env, db, u, dates, names[j])
    {
      var found := FindTagId(db.tags, dates, env.cipher.enc(u, names[i]));
      list := list + [if found.None? then Missing(dates, names[i]) else Known(found.value)];
    }
  }

  lemma DatesIsOne(db: Db, u: UserId, c: Id)
    requires Aggregate(db) && IsKind(db, u, Date, c)
    ensures HasKind(db.categories, u, Date) && CategoryOfKind(db, u, Date) == c
  {
    assert HasKind(db.categories, u, Date);
    var d := CategoryOfKind(db, u, Date);
    assert c == d || Apart(db.categories[c], db.categories[d]);
  }

  // Insert the tags that are still missing, and collect the ids of all
  method CreateAllTags(env: Env, before: map<Id, Tag>, u: UserId, list: seq<DateTag>, ids: seq<Id>, ghost dates: Id)
    returns (tags: map<Id, Tag>, made: seq<Id>)
    requires TagNamesUnique(before) && |ids| == |list| && InDates(list, dates)
    requires forall i | 0 <= i < |ids| :: ids[i] !in before
    requires forall i, j | 0 <= i < j < |ids| :: ids[i] != ids[j]
    ensures (tags, made) == CreateAll(env, before, u, list, ids)
  {
    tags, made := before, [];
    for i := 0 to |list|
      invariant (tags, made) == CreateAll(env, before, u, list[..i], ids[..i])
    {
      PrefixIsUnique(env, before, u, list, ids, dates, i);
      assert list[..i + 1][..i] == list[..i] && ids[..i + 1][..i] == ids[..i];
      hide TagNamesUnique, InDates;
      match list[i]
      case Known(known) =>
        made := made + [known];
      case Missing(category, name) =>
        var name := env.cipher.enc(u, name);
        var found := FindTagId(tags, category, name);
        if found.None? {
          tags := tags[ids[i] := Tag(Key(category, name, None), None)];
          made := made + [ids[i]];
        } else {
          made := made + [found.value];
        }
    }
    assert list[..|list|] == list && ids[..|list|] == ids;
  }

  lemma PrefixIsUnique(env: Env, tags: map<Id, Tag>, u: UserId, list: seq<DateTag>, ids: seq<Id>, dates: Id, i: nat)
    requires TagNamesUnique(tags) && |ids| == |list| && InDates(list, dates) && i <= |list|
    requires forall i | 0 <= i < |ids| :: ids[i] !in tags
    requires forall i, j | 0 <= i < j < |ids| :: ids[i] != ids[j]
    ensures TagNamesUnique(CreateAll(env, tags, u, list[..i], ids[..i]).0)
  {
    assert InDates(list[..i], dates);
    hide TagNamesUnique, InDates;
    CreateAllAdds(env, tags, u, list[..i], ids[..i], dates);
  }

  // One link per tag; a tag that is gone refuses its link
  method LinkAll(kept: set<Link>, e: Id, u: UserId, tags: map<Id, Tag>, all: seq<Id>) returns (links: Option<set<Link>>)
    ensures links.None? <==> exists t | t in all :: t !in tags
    ensures links.Some? ==> links.value == kept + LinksTo(e, u, all)
  {
    var linked := kept;
    for i := 0 to |all|
      invariant linked == kept + LinksTo(e, u, all[..i])
      invariant forall j | 0 <= j < i :: all[j] in tags
    {
      assert all[..i + 1] == all[..i] + [all[i]];
      if all[i] !in tags {
        assert all[i] in all;
        return None;
      }
      linked := linked + {Link(all[i], e, u)};
    }
    assert all[..|all|] == all;
    return Some(linked);
  }

  // The transaction of a create: the date tags, the row and the links. A client id another
  // event has, or a tag that is gone, rolls all of it back.
  method InsertEventRows(env: Env, db: Db, u: UserId, e: Id, event: Event, clientTags: seq<Id>, list: seq<DateTag>,
                         ids: seq<Id>, ghost dates: Id)
    returns (next: Db, outcome: Outcome)
    requires TagNamesUnique(db.tags) && |ids| == |list| && InDates(list, dates) && NewTagIds(db, ids)
    requires e !in db.events && LinksOk(db.categories, db.tags, db.events, db.links)
    ensures (next, outcome) == InsertEvent(env, db, u, e, event, clientTags, list, ids)
  {
    NoLinksYet(db, e);
    hide TagNamesUnique, InDates, CreateAll, LinksOk, LinksTo;
    var tags, made := CreateAllTags(env, db.tags, u, list, ids, dates);
    if event.clientId.Some? {
      if f :| f in db.events && db.events[f].user == u && db.events[f].clientId == event.clientId {
        assert EventCreated(db, u, event.clientId, f);
        return db, DuplicateClientId;
      }
    }
    assert !exists f :: EventCreated(db, u, event.clientId, f);
    hide EventCreated;
    var links := LinkAll(db.links, e, u, tags, clientTags + made);
    if links.None? {
      return db, Failed;
    }
    return db.(tags := tags, events := db.events[e := event], links := links.value), Done(e);
  }

  lemma NoLinksYet(db: Db, e: Id)
    requires e !in db.events && LinksOk(db.categories, db.tags, db.events, db.links)
    ensures (set l | l in db.links && l.event != e) == db.links
  {
    hide OwnsTag;
  }

  // The transaction of an update: the event must still be the user's; then the date tags, the
  // row and the links anew. A tag that is gone rolls all of it back.
  method UpdateEventRows(env: Env, db: Db, u: UserId, e: Id, description: string, period: DateTags.Period,
                          clientTags: seq<Id>, list: seq<DateTag>, ids: seq<Id>, ghost dates: Id)
    returns (next: Db, outcome: Outcome)
    requires TagNamesUnique(db.tags) && |ids| == |list| && InDates(list, dates) && NewTagIds(db, ids)
    ensures (next, outcome) == RewriteEvent(env, db, u, e, description, period, clientTags, list, ids)
  {
    hide TagNamesUnique, InDates, CreateAll, LinksTo;
    if e !in db.events || db.events[e].user != u {
      return db, NotFound;
    }
    var tags, made := CreateAllTags(env, db.tags, u, list, ids, dates);
    var events := db.events[e := db.events[e].(description := description, period := period)];
    var kept := set l | l in db.links && l.event != e;
    var links := LinkAll(kept, e, u, tags, clientTags + made);
    if links.None? {
      return db, Failed;
    }
    return db.(tags := tags, events := events, links := links.value), Done(e);
  }

  // The names the period of an event implies, by the walk over its months
  method NamesOfPeriod(period: DateTags.Period) returns (names: seq<string>)
    requires DateTags.PeriodAccepted(period)
    ensures NamesOf(names, period) && |names| <= DateTags.MAX_DATE_TAGS
  {
    var event := new DateTags.Event(DateTags.Instant(period.start, 0),
        if period.end.Some? then Some(DateTags.Instant(period.end.value, 0)) else None, period.ongoing);
    ghost var walked;
    names, walked := event.DateTagNames();
    assert event.Days() == period;
    DateTags.AcceptedHasFewNames(names, period);
  }

  // ---- Search ----

  // What the loop has gathered from the names before i
  ghost predicate Gathered(env: Env, on: bool, u: UserId, asked: seq<string>, i: nat, seen: set<string>,
                           encTags: seq<string>)
    requires i <= |asked|
  {
    && (on ==> forall q | q in asked[..i] :: IsIndex(q))
    && encTags == Search.Terms(env, on, u, asked[..i])
    && (forall n :: n in seen <==> n in Search.Dedupe(Search.Normalised(env, on, asked[..i])))
  }

  lemma GatheredNone(env: Env, on: bool, u: UserId, asked: seq<string>)
    ensures Gathered(env, on, u, asked, 0, {}, [])
  {
    Search.NoTerms(env, on, u);
    assert asked[..0] == [];
    hide Search.Terms, Search.Dedupe, Search.Normalised;
  }

  lemma GatherOne(env: Env, on: bool, u: UserId, asked: seq<string>, i: nat, seen: set<string>, encTags: seq<string>)
    requires i < |asked| && Gathered(env, on, u, asked, i, seen, encTags) && (on ==> IsIndex(asked[i]))
    ensures var t := if on then asked[i] else TitleCase(env.alphabet, asked[i]);
            if t in seen then Gathered(env, on, u, asked, i + 1, seen, encTags)
            else Gathered(env, on, u, asked, i + 1, seen + {t}, encTags + [if on then t else env.cipher.enc(u, t)])
  {
    hide Search.Terms, Search.Dedupe, Search.Normalised, IsIndex, TitleCase;
    Search.OneMoreTerm(env, on, u, asked, i);
    forall q | on && q in asked[..i + 1]
      ensures IsIndex(q)
    {
      assert asked[..i + 1] == asked[..i] + [asked[i]];
    }
  }

  lemma GatheredAll(env: Env, on: bool, u: UserId, asked: seq<string>, seen: set<string>, encTags: seq<string>)
    requires Gathered(env, on, u, asked, |asked|, seen, encTags)
    ensures Search.QueryAccepted(on, asked) && encTags == Search.Terms(env, on, u, asked)
  {
    assert asked[..|asked|] == asked;
    hide Search.Terms, IsIndex;
  }

  // Requested names as they are looked for, each once; None for a malformed index
  method SearchTerms(env: Env, on: bool, u: UserId, asked: seq<string>) returns (terms: Option<seq<string>>)
    ensures terms.Some? <==> Search.QueryAccepted(on, asked)
    ensures terms.Some? ==> terms.value == Search.Terms(env, on, u, asked)
  {
    hide Gathered, Search.Terms, IsIndex, TitleCase;
    var encTags: seq<string> := [];
    var seen: set<string> := {};
    GatheredNone(env, on, u, asked);
    for i := 0 to |asked|
      invariant Gathered(env, on, u, asked, i, seen, encTags)
    {
      var t := asked[i];
      if on {
        if !IsIndex(t) {
          assert t in asked;
          return None;
        }
      } else {
        t := TitleCaseRunes(env.alphabet, t);
      }
      GatherOne(env, on, u, asked, i, seen, encTags);
      if t !in seen {
        seen := seen + {t};
        encTags := encTags + [if on then t else env.cipher.enc(u, t)];
      }
    }
    GatheredAll(env, on, u, asked, seen, encTags);
    return Some(encTags);
  }

  // The rows of the join an event's group is counted over
  predicate RowMatches(db: Db, u: UserId, e: Id, name: string, l: Link) {
    l in db.links && l.event == e && l.user == u && l.tag in db.tags
    && exists named | named in db.tags :: Search.Joined(db, u, e, name, l, named)
  }

  function CountedNames(db: Db, u: UserId, e: Id, names: seq<string>): set<string> {
    set name | name in names && exists l | l in db.links :: RowMatches(db, u, e, name, l)
  }

  lemma CountedAreMatched(db: Db, u: UserId, e: Id, names: seq<string>)
    ensures CountedNames(db, u, e, names) == Search.MatchedNames(db, u, e, names)
  {
    forall name
      ensures (exists l | l in db.links :: RowMatches(db, u, e, name, l)) <==> Search.Hits(db, u, e, name)
    {
      HitsByRows(db, u, e, name);
    }
    hide Search.Hits, RowMatches;
  }

  // GROUP BY the event, HAVING as many distinct names as were asked for
  method FindEvents(db: Db, u: UserId, names: seq<string>) returns (found: set<Id>)
    ensures forall e :: e in found <==> Search.Found(db, u, names, e)
  {
    found := set e | e in db.events && db.events[e].user == u
        && (|names| > 0 ==> |CountedNames(db, u, e, names)| == |names|);
    forall e
      ensures CountedNames(db, u, e, names) == Search.MatchedNames(db, u, e, names)
    {
      CountedAreMatched(db, u, e, names);
    }
    hide CountedNames, Search.MatchedNames;
  }

  lemma HitsByRows(db: Db, u: UserId, e: Id, name: string)
    ensures (exists l | l in db.links :: RowMatches(db, u, e, name, l)) <==> Search.Hits(db, u, e, name)
  {
    if Search.Hits(db, u, e, name) {
      var l, named :| Search.Joined(db, u, e, name, l, named);
      assert RowMatches(db, u, e, name, l);
    }
  }

  // Sort the found events: the newest of the rest comes next
  method SortTimeline(events: map<Id, Event>, found: set<Id>) returns (sorted: seq<Id>)
    requires found <= events.Keys
    ensures Search.IsTimeline(events, sorted) && forall e :: e in sorted <==> e in found
  {
    sorted := [];
    var rest := found;
    while rest != {}
      invariant rest <= found
      invariant Search.IsTimeline(events, sorted)
      invariant forall e :: e in found <==> e in sorted || e in rest
      invariant forall e, f | e in sorted && f in rest :: Search.Newer(events, e, f)
      decreases |rest|
    {
      Search.SomeNewest(events, rest);
      var next :| next in rest && Search.Newest(events, rest, next);
      sorted := sorted + [next];
      rest := rest - {next};
    }
  }
}
