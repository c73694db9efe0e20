/**
 What a rotation amounts to, whether it is the first one of a live token or a replay of one
 whose answer was lost: the device session is signed out, signed in again under the same
 id with the new pair, and the token presented is kept beside it, able to replay.
 */
module SessionRotation {
  import opened Options
  import opened SessionStore
  import opened SessionInvariant
  import opened SessionRevocation
  import opened SessionLogin

  // The store a rotation must lead to; e is the store with the device session signed out
  function Reinstalled(e: Store, user: UserId, d: DeviceId, p: Uuid, life: Time, td: TokenDetails): Store {
    Retain(CreateSession(e, user, td, d), user, p, life, td.refresh)
  }

  // What follows the claim of the token presented
  function Finish(c: Store, user: UserId, p: Uuid, exp: Time, td: TokenDetails, newId: DeviceId,
                  upTo: Progress): Store {
    var recorded := Record(c, user, p, td, exp);
    if upTo.Recorded? then recorded
    else
      var stored := CreateAuth(recorded, user, td);
      if upTo.PairStored? then stored else CarrySession(stored, user, p, td, newId)
  }

  // e is a store without any key of p's login, p being an issued token that still points at
  // its device session d
  ghost predicate SignedOut(h: History, e: Store, user: UserId, d: DeviceId, p: Uuid, life: Time) {
    && Issued(h, e)
    && p in h.born && h.born[p] == Birth(user, d, life) && h.now < life
    && !HasKey(e, p) && p !in e.sid
    && d !in e.device
    && (forall x | x in Ids(e.tokens, user) :: Known(h, x))
    && p !in Ids(e.tokens, user)
  }

  // c is e with p claimed: only p's own link to its device session, the session itself and
  // the per-user sets may differ
  ghost predicate Claimed(c: Store, e: Store, user: UserId, d: DeviceId, p: Uuid, life: Time) {
    && c.access == e.access
    && c.refresh == e.refresh
    && c.rot == e.rot
    && c.prev == e.prev
    && c.sid == e.sid[p := Sid(d, life)]
    && c.device - {d} == e.device
    && SameSets(c.tokens, e.tokens, user, {p})
    && SameSets(c.devices, e.devices, user, {d})
    && p in Ids(c.tokens, user)
  }

  // The sets of all other users agree, and those of user up to ids
  ghost predicate SameSets<T(!new)>(index: map<UserId, Index<T>>, other: map<UserId, Index<T>>, user: UserId,
                             ids: set<T>) {
    && index - {user} == other - {user}
    && Ids(index, user) + ids == Ids(other, user) + ids
  }

  lemma SAddSame<T(!new)>(index: map<UserId, Index<T>>, other: map<UserId, Index<T>>, user: UserId, ids: set<T>,
                   more: set<T>, exp: Time)
    requires SameSets(index, other, user, ids) && ids <= more
    ensures SAdd(index, user, more, exp) == SAdd(other, user, more, exp)
  {
    assert Ids(index, user) + more == Ids(index, user) + ids + more;
    assert Ids(other, user) + more == Ids(other, user) + ids + more;
    forall u | u != user
      ensures u in index <==> u in other
      ensures u in index ==> index[u] == other[u]
    {
      assert u in index - {user} <==> u in other - {user};
    }
  }

  lemma FinishTokens(c: map<UserId, Index<Uuid>>, e: map<UserId, Index<Uuid>>, user: UserId, p: Uuid, pair: set<Uuid>,
                     exp: Time)
    requires SameSets(c, e, user, {p}) && p in Ids(c, user)
    ensures SAdd(c, user, pair, exp) == SAdd(SAdd(e, user, pair, exp), user, {p}, exp)
  {
    SAddSame(c, e, user, {p}, pair + {p}, exp);
    assert Ids(c, user) + pair == Ids(c, user) + (pair + {p});
    assert Ids(e, user) + (pair + {p}) == Ids(e, user) + pair + {p};
  }

  lemma SameDevices(c: map<DeviceId, Device>, e: map<DeviceId, Device>, d: DeviceId, renewed: Device)
    requires c - {d} == e
    ensures c[d := renewed] == e[d := renewed]
  {
    forall k
      ensures k in c[d := renewed] <==> k in e[d := renewed]
      ensures k in e ==> k in c && e[k] == c[k]
    {
      assert k in c - {d} <==> k in e;
    }
  }

  // A completed rotation from a claim leads to the same store whatever the claim went through
  lemma FinishReinstalls(h: History, c: Store, e: Store, user: UserId, d: DeviceId, p: Uuid, life: Time,
                         td: TokenDetails, newId: DeviceId)
    requires SignedOut(h, e, user, d, p, life) && Claimed(c, e, user, d, p, life) && Fresh(h, td)
    ensures Finish(c, user, p, life, td, newId, Carried) == Reinstalled(e, user, d, p, life, td)
  {
    hide SameSets, Issued, HasKey, Known;
    var f, g := Finish(c, user, p, life, td, newId, Carried), Reinstalled(e, user, d, p, life, td);
    FinishTokens(c.tokens, e.tokens, user, p, {td.access, td.refresh}, td.rtExpires);
    SAddSame(c.devices, e.devices, user, {d}, {d}, td.rtExpires);
    SameDevices(c.device, e.device, d, Device(user, td.refresh, td.rtExpires));
    assert p != td.refresh && f.sid == g.sid;
  }

  // ---- The first claim ----

  lemma DeviceOfToken(h: History, s: Store, p: Uuid)
    requires Coupled(h, s) && TimesOk(h, s) && Usable(s, p)
    ensures var Birth(user, d, life) := h.born[p];
            && d in s.device && s.device[d].user == user
            && s.device[d].refresh == (if p in s.refresh then p else s.rot[p].partner)
            && h.now < life && s.sid[p] == Sid(d, life)
            && d in h.logins && h.logins[d] == user
  {
  }

  lemma SignedOutStore(h: History, s: Store, e: Store, p: Uuid)
    requires HistoryOk(h) && p in h.born && HasKey(s, p) && h.now < h.born[p].life
    requires Ended(h, s, e, {h.born[p].login})
    requires Issued(h, e) && IndexIsKeys(h, e)
    ensures var Birth(user, d, life) := h.born[p]; SignedOut(h, e, user, d, p, life)
  {
    var d := h.born[p].login;
    assert Of(h, {d}, p);
    EndedKeepsKey(h, s, e, {d}, p);
    forall x | x in Ids(e.tokens, h.born[p].user)
      ensures Known(h, x) && x != p
    {
      assert Listed(e.tokens, h.born[p].user, x);
    }
    hide HistoryOk, TokensTrimmed, DevicesTrimmed, IndexIsKeys, HasKey, Known, BirthOf, Listed, Ids;
  }

  lemma VacantStore(h: History, s: Store, e: Store, d: DeviceId)
    requires HistoryOk(h) && Issued(h, e) && PairsOk(h, e) && PendingOk(h, e)
    requires Ended(h, s, e, {d})
    ensures Vacant(h, e, d)
  {
    hide HistoryOk, Issued, PairsOk, PendingOk, TokensTrimmed, DevicesTrimmed, KeyOf, HasKey, BirthOf, Keep;
    forall x | HasKey(e, x)
      ensures Known(h, x) && BirthOf(h, x).login != d
    {
      KeyOwner(h, e, x);
      EndedKeepsKey(h, s, e, {d}, x);
    }
  }

  lemma SignedOutLeaves(h: History, s: Store, p: Uuid)
    requires Inv(System(s, h)) && Usable(s, p)
    ensures var Birth(user, d, life) := h.born[p];
            && d in s.device && s.device[d].user == user
            && d in h.logins && h.logins[d] == user
            && Inv(System(RevokeSession(s, user, d), h))
            && Vacant(h, RevokeSession(s, user, d), d)
            && SignedOut(h, RevokeSession(s, user, d), user, d, p, life)
  {
    var Birth(user, d, life) := h.born[p];
    var e := RevokeSession(s, user, d);
    assert HasKey(s, p);
    hide HistoryOk, PairsOk, PendingOk, OneLivePerLogin, SidsOk, DevicesOk, KeysIndexed, IndexIsKeys, DeviceIndexOk,
      TimesOk, Ended, Vacant, RevokeSession, HasKey, SignedOut;
    DeviceOfToken(h, s, p);
    RevokeSessionEnds(h, s, user, d);
    EndedKeepsInv(h, s, e, {d});
    SignedOutStore(h, s, e, p);
    VacantStore(h, s, e, d);
  }

  lemma SRemIds<T(!new)>(index: map<UserId, Index<T>>, user: UserId, ids: set<T>)
    ensures Ids(SRem(index, user, ids), user) == Ids(index, user) - ids
    ensures SRem(index, user, ids) - {user} == index - {user}
  {
  }

  lemma RetireLiveFields(s: Store, p: Uuid)
    requires p in s.refresh
    ensures var (c, claimed) := Retire(s, s.refresh[p].user, p);
            && claimed == Some(s.refresh[p].exp)
            && c.access == s.access - {s.refresh[p].partner}
            && c.refresh == s.refresh - {p}
            && c.rot == s.rot - Predecessor(s, p)
            && c.prev == s.prev - {p}
            && c.sid == s.sid - Predecessor(s, p)
            && c.device == s.device && c.devices == s.devices
            && c.tokens - {s.refresh[p].user} == s.tokens - {s.refresh[p].user}
            && Ids(c.tokens, s.refresh[p].user)
                == Ids(s.tokens, s.refresh[p].user) - {s.refresh[p].partner} - Predecessor(s, p)
  {
    var user, pair := s.refresh[p].user, SRem(s.tokens, s.refresh[p].user, {s.refresh[p].partner});
    SRemIds(s.tokens, user, {s.refresh[p].partner});
    SRemIds(pair, user, Predecessor(s, p));
    hide SRem, Ids;
    if p !in s.prev {
      assert s.prev - {p} == s.prev && s.rot - {} == s.rot && s.sid - {} == s.sid;
    }
  }

  // The same for the device session signed out
  lemma RevokedFields(s: Store, user: UserId, d: DeviceId)
    requires d in s.device && s.device[d].user == user && s.device[d].refresh in s.refresh
    requires s.refresh[s.device[d].refresh].user == user
    ensures var e, r := RevokeSession(s, user, d), s.device[d].refresh;
            var a, pred := s.refresh[r].partner, Predecessor(s, r);
            && e.access == s.access - {a}
            && e.refresh == s.refresh - {r}
            && e.rot == s.rot - pred
            && e.prev == s.prev - {r}
            && e.sid == s.sid - {r} - pred
            && e.device == s.device - {d}
            && e.tokens - {user} == s.tokens - {user}
            && Ids(e.tokens, user) == Ids(s.tokens, user) - {r, a} - pred
            && e.devices - {user} == s.devices - {user}
            && Ids(e.devices, user) == Ids(s.devices, user) - {d}
  {
    var r := s.device[d].refresh;
    var pair := SRem(s.tokens, user, {r, s.refresh[r].partner});
    RevokeByRefreshFields(s, r);
    SRemIds(s.tokens, user, {r, s.refresh[r].partner});
    SRemIds(pair, user, Predecessor(s, r));
    SRemIds(s.devices, user, {d});
    hide SRem, Ids, RevokeByRefresh;
  }

  lemma KeyListed(s: Store, p: Uuid)
    requires KeysIndexed(s) && HasKey(s, p)
    ensures p in Ids(s.tokens, KeyOf(s, p).user)
  {
  }

  lemma LiveTokenFacts(h: History, s: Store, p: Uuid)
    requires Coupled(h, s) && KeysIndexed(s) && p in s.refresh
    ensures p != s.refresh[p].partner && p !in Predecessor(s, p)
    ensures s.refresh[p].user == h.born[p].user && s.refresh[p].exp == h.born[p].life
    ensures p in Ids(s.tokens, h.born[p].user)
    ensures p in s.sid
  {
    assert HasKey(s, p);
    KeyListed(s, p);
    hide KeysIndexed, OneLivePerLogin, DevicesOk;
  }

  // The claim of a live token takes out its partner and its predecessor; signing its session
  // out takes out its link besides
  lemma LiveFieldsClaim(s: Store, c: Store, e: Store, user: UserId, d: DeviceId, p: Uuid, life: Time, a: Uuid,
                        pred: set<Uuid>)
    requires p in s.sid && s.sid[p] == Sid(d, life) && p != a && p !in pred && p in Ids(s.tokens, user)
    requires c.access == e.access == s.access - {a} && c.refresh == e.refresh == s.refresh - {p}
    requires c.rot == e.rot == s.rot - pred && c.prev == e.prev == s.prev - {p}
    requires c.sid == s.sid - pred && e.sid == s.sid - {p} - pred
    requires c.device == s.device && e.device == s.device - {d}
    requires c.tokens - {user} == e.tokens - {user} == s.tokens - {user}
    requires Ids(c.tokens, user) == Ids(s.tokens, user) - {a} - pred
    requires Ids(e.tokens, user) == Ids(s.tokens, user) - {p, a} - pred
    requires c.devices == s.devices && e.devices - {user} == s.devices - {user}
    requires Ids(e.devices, user) == Ids(s.devices, user) - {d}
    ensures Claimed(c, e, user, d, p, life)
  {
    hide Ids;
  }

  lemma RetireLiveClaims(h: History, s: Store, p: Uuid)
    requires Inv(System(s, h)) && p in s.refresh
    ensures var Birth(user, d, life) := h.born[p];
            var (c, claimed) := Retire(s, user, p);
            claimed == Some(life) && Claimed(c, RevokeSession(s, user, d), user, d, p, life)
  {
    var Birth(user, d, life) := h.born[p];
    hide SRem, HistoryOk, PairsOk, PendingOk, OneLivePerLogin, SidsOk, DevicesOk, KeysIndexed, IndexIsKeys,
      DeviceIndexOk, TimesOk, RevokeSession, Predecessor, Retire, Ids, Claimed;
    DeviceOfToken(h, s, p);
    LiveTokenFacts(h, s, p);
    RetireLiveFields(s, p);
    RevokedFields(s, user, d);
    LiveFieldsClaim(s, Retire(s, user, p).0, RevokeSession(s, user, d), user, d, p, life, s.refresh[p].partner,
        Predecessor(s, p));
  }

  lemma RetirePendingFields(s: Store, p: Uuid)
    requires p !in s.refresh && p in s.rot && s.rot[p].partner in s.refresh
    requires s.refresh[s.rot[p].partner].user == s.rot[p].user
    ensures var (c, claimed) := Retire(s, s.rot[p].user, p);
            var user, n := s.rot[p].user, s.rot[p].partner;
            var a := s.refresh[n].partner;
            && claimed == Some(s.rot[p].exp)
            && c.access == s.access - {a}
            && c.refresh == s.refresh - {n}
            && c.rot == s.rot - {p}
            && c.prev == s.prev - {n}
            && c.sid == s.sid - {n}
            && c.device == s.device && c.devices == s.devices
            && c.tokens - {user} == s.tokens - {user}
            && Ids(c.tokens, user) == Ids(s.tokens, user) - {n, a}
  {
    var n := s.rot[p].partner;
    SRemIds(s.tokens, s.rot[p].user, {n, s.refresh[n].partner});
    hide SRem, Ids;
  }

  lemma PendingTokenFacts(h: History, s: Store, p: Uuid)
    requires Coupled(h, s) && KeysIndexed(s) && p in s.rot
    ensures p !in s.refresh && s.rot[p].partner in s.refresh
    ensures s.refresh[s.rot[p].partner].user == s.rot[p].user == h.born[p].user
    ensures s.rot[p].exp == h.born[p].life
    ensures Predecessor(s, s.rot[p].partner) == {p}
    ensures p != s.refresh[s.rot[p].partner].partner
    ensures p in Ids(s.tokens, h.born[p].user)
    ensures p in s.sid
  {
    assert HasKey(s, p) && p !in s.access;
    assert h.born[s.rot[p].partner].user == h.born[p].user;
    KeyListed(s, p);
    hide KeysIndexed, OneLivePerLogin, DevicesOk;
  }

  lemma RetirePendingClaims(h: History, s: Store, p: Uuid)
    requires Inv(System(s, h)) && p in s.rot
    ensures var Birth(user, d, life) := h.born[p];
            var (c, claimed) := Retire(s, user, p);
            claimed == Some(life) && Claimed(c, RevokeSession(s, user, d), user, d, p, life)
  {
    var Birth(user, d, life) := h.born[p];
    hide SRem, HistoryOk, PairsOk, PendingOk, OneLivePerLogin, SidsOk, DevicesOk, KeysIndexed, IndexIsKeys,
      DeviceIndexOk, TimesOk, RevokeSession, Predecessor, Retire, Ids;
    DeviceOfToken(h, s, p);
    PendingTokenFacts(h, s, p);
    RetirePendingFields(s, p);
    RevokedFields(s, user, d);
  }

  // ---- The claim of a replay ----

  lemma ReplayClaimsRecorded(h: History, c: Store, e: Store, user: UserId, d: DeviceId, p: Uuid, life: Time,
                             td: TokenDetails)
    requires SignedOut(h, e, user, d, p, life) && Claimed(c, e, user, d, p, life) && Fresh(h, td)
    ensures Retire(Record(c, user, p, td, life), user, p) == (c, Some(life))
  {
    assert td.refresh !in e.prev && td.refresh !in e.refresh;
    assert c.rot[p := Token(user, td.refresh, life)] - {p} == c.rot;
    assert c.prev[td.refresh := BackLink(p, life)] - {td.refresh} == c.prev;
    hide SameSets;
  }

  // No fresh uuid can be in a store yet
  lemma FreshIsAbsent(h: History, c: Store, e: Store, user: UserId, d: DeviceId, p: Uuid, life: Time, td: TokenDetails)
    requires SignedOut(h, e, user, d, p, life) && Claimed(c, e, user, d, p, life) && Fresh(h, td)
    ensures td.access !in c.access && td.refresh !in c.refresh && td.refresh !in c.prev && td.refresh !in c.sid
    ensures p !in c.rot && p !in c.refresh && p != td.refresh && p in c.sid && c.sid[p].device == d
    ensures {td.access, td.refresh} !! Ids(c.tokens, user)
  {
    forall x | x in Ids(c.tokens, user)
      ensures Known(h, x)
    {
      assert x in Ids(e.tokens, user) + {p};
    }
    hide HasKey, Ids;
  }

  lemma InsertThenRemove<K, V>(m: map<K, V>, k: K, v: V)
    requires k !in m
    ensures m[k := v] - {k} == m
  {
  }

  // What a try writes, and nothing else
  lemma FinishFields(c: Store, user: UserId, d: DeviceId, p: Uuid, life: Time, td: TokenDetails, newId: DeviceId,
                     upTo: Progress)
    requires p != td.refresh && p in c.sid && c.sid[p].device == d
    ensures var x, a, n := Finish(c, user, p, life, td, newId, upTo), td.access, td.refresh;
            && x.rot == c.rot[p := Token(user, n, life)] && x.prev == c.prev[n := BackLink(p, life)]
            && x.access == (if upTo.Recorded? then c.access else c.access[a := Token(user, n, td.atExpires)])
            && x.refresh == (if upTo.Recorded? then c.refresh else c.refresh[n := Token(user, a, td.rtExpires)])
            && x.tokens == (if upTo.Recorded? then c.tokens else SAdd(c.tokens, user, {a, n}, td.rtExpires))
            && x.sid == (if upTo.Carried? then c.sid[n := Sid(d, td.rtExpires)] else c.sid)
            && x.device == (if upTo.Carried? then c.device[d := Device(user, n, td.rtExpires)] else c.device)
            && x.devices == (if upTo.Carried? then SAdd(c.devices, user, {d}, td.rtExpires) else c.devices)
  {
    hide SAdd;
  }

  lemma RetireUndoes(c: Store, f: Store, user: UserId, p: Uuid, life: Time, td: TokenDetails, sid: Sid)
    requires td.access !in c.access && td.refresh !in c.refresh && td.refresh !in c.prev && td.refresh !in c.sid
    requires p !in c.rot && p !in c.refresh && p != td.refresh
    requires f.access == c.access[td.access := Token(user, td.refresh, td.atExpires)]
    requires f.refresh == c.refresh[td.refresh := Token(user, td.access, td.rtExpires)]
    requires f.rot == c.rot[p := Token(user, td.refresh, life)] && f.prev == c.prev[td.refresh := BackLink(p, life)]
    requires f.sid == c.sid || f.sid == c.sid[td.refresh := sid]
    ensures var (c2, claimed) := Retire(f, user, p);
            && claimed == Some(life)
            && c2.access == c.access && c2.refresh == c.refresh && c2.rot == c.rot && c2.prev == c.prev
                && c2.sid == c.sid
            && c2.device == f.device && c2.devices == f.devices
            && c2.tokens - {user} == f.tokens - {user}
            && Ids(c2.tokens, user) == Ids(f.tokens, user) - {td.refresh, td.access}
  {
    hide Ids, Retire;
    RetirePendingFields(f, p);
    InsertThenRemove(c.access, td.access, f.access[td.access]);
    InsertThenRemove(c.refresh, td.refresh, f.refresh[td.refresh]);
    InsertThenRemove(c.rot, p, f.rot[p]);
    InsertThenRemove(c.prev, td.refresh, f.prev[td.refresh]);
    assert c.sid - {td.refresh} == c.sid;
    InsertThenRemove(c.sid, td.refresh, sid);
  }

  // A replay takes back the pair the attempt before it stored
  lemma ReplayClaimsStored(h: History, c: Store, e: Store, user: UserId, d: DeviceId, p: Uuid, life: Time,
                           td: TokenDetails,
                           newId: DeviceId, upTo: Progress)
    requires SignedOut(h, e, user, d, p, life) && Claimed(c, e, user, d, p, life) && Fresh(h, td)
    requires !upTo.Recorded?
    ensures var (c2, claimed) := Retire(Finish(c, user, p, life, td, newId, upTo), user, p);
            && claimed == Some(life)
            && c2.access == c.access && c2.refresh == c.refresh && c2.rot == c.rot && c2.prev == c.prev
                && c2.sid == c.sid
            && c2.device == (if upTo.Carried? then c.device[d := Device(user, td.refresh, td.rtExpires)] else c.device)
            && c2.devices == (if upTo.Carried? then SAdd(c.devices, user, {d}, td.rtExpires) else c.devices)
            && c2.tokens - {user} == SAdd(c.tokens, user, {td.access, td.refresh}, td.rtExpires) - {user}
            && Ids(c2.tokens, user) == Ids(SAdd(c.tokens, user, {td.access, td.refresh}, td.rtExpires),
                user) - {td.refresh, td.access}
  {
    FreshIsAbsent(h, c, e, user, d, p, life, td);
    hide SameSets, SAdd, Ids, Retire, Claimed, SignedOut, Fresh, Finish;
    FinishFields(c, user, d, p, life, td, newId, upTo);
    RetireUndoes(c, Finish(c, user, p, life, td, newId, upTo), user, p, life, td, Sid(d, td.rtExpires));
  }

  lemma ReplaySets(c: map<UserId, Index<Uuid>>, user: UserId, pair: set<Uuid>, exp: Time)
    requires pair !! Ids(c, user)
    ensures Ids(SAdd(c, user, pair, exp), user) - pair == Ids(c, user)
    ensures SAdd(c, user, pair, exp) - {user} == c - {user}
  {
  }

  lemma DeviceSets(c: map<UserId, Index<DeviceId>>, e: map<UserId, Index<DeviceId>>, user: UserId, d: DeviceId,
                   exp: Time)
    requires SameSets(c, e, user, {d})
    ensures SameSets(SAdd(c, user, {d}, exp), e, user, {d})
  {
    assert SAdd(c, user, {d}, exp) - {user} == c - {user};
    assert Ids(SAdd(c, user, {d}, exp), user) + {d} == Ids(c, user) + {d};
  }

  lemma ClaimedAgain(c: Store, c2: Store, e: Store, user: UserId, d: DeviceId, p: Uuid, life: Time, renewed: Device,
                     exp: Time)
    requires Claimed(c, e, user, d, p, life)
    requires c2.access == c.access && c2.refresh == c.refresh && c2.rot == c.rot && c2.prev == c.prev && c2.sid == c.sid
    requires c2.device == c.device || c2.device == c.device[d := renewed]
    requires c2.devices == c.devices || c2.devices == SAdd(c.devices, user, {d}, exp)
    requires c2.tokens - {user} == c.tokens - {user} && Ids(c2.tokens, user) == Ids(c.tokens, user)
    ensures Claimed(c2, e, user, d, p, life)
  {
    DeviceSets(c.devices, e.devices, user, d, exp);
    assert c.device[d := renewed] - {d} == c.device - {d};
    hide SAdd, Ids;
  }

  // A replay takes back whatever the attempt before it left, wherever that attempt stopped
  lemma ReplayClaims(h: History, c: Store, e: Store, user: UserId, d: DeviceId, p: Uuid, life: Time, td: TokenDetails,
                     newId: DeviceId, upTo: Progress)
    requires SignedOut(h, e, user, d, p, life) && Claimed(c, e, user, d, p, life) && Fresh(h, td)
    ensures var (c2, claimed) := Retire(Finish(c, user, p, life, td, newId, upTo), user, p);
            claimed == Some(life) && Claimed(c2, e, user, d, p, life)
  {
    hide SignedOut, Retire, Fresh;
    if upTo.Recorded? {
      ReplayClaimsRecorded(h, c, e, user, d, p, life, td);
    } else {
      ReplayClaimsStored(h, c, e, user, d, p, life, td, newId, upTo);
      FreshIsAbsent(h, c, e, user, d, p, life, td);
      var c2 := Retire(Finish(c, user, p, life, td, newId, upTo), user, p).0;
      assert {td.refresh, td.access} == {td.access, td.refresh};
      ReplaySets(c.tokens, user, {td.access, td.refresh}, td.rtExpires);
      hide Finish, Claimed, SAdd, Ids, SameSets;
      ClaimedAgain(c, c2, e, user, d, p, life, Device(user, td.refresh, td.rtExpires), td.rtExpires);
    }
  }

  // ---- Rotations, replays and retries ----

  // Whatever p went through since its device session was e, claiming it leads back there
  ghost predicate Claimable(s: Store, e: Store, user: UserId, d: DeviceId, p: Uuid, life: Time) {
    var (c, claimed) := Retire(s, user, p);
    claimed == Some(life) && Claimed(c, e, user, d, p, life)
  }

  lemma UsableIsClaimable(h: History, s: Store, p: Uuid)
    requires Inv(System(s, h)) && Usable(s, p)
    ensures var Birth(user, d, life) := h.born[p]; Claimable(s, RevokeSession(s, user, d), user, d, p, life)
  {
    if p in s.refresh {
      RetireLiveClaims(h, s, p);
    } else {
      RetirePendingClaims(h, s, p);
    }
  }

  lemma StillAhead(h: History, e: Store, user: UserId, d: DeviceId, p: Uuid, life: Time)
    requires SignedOut(h, e, user, d, p, life)
    ensures h.now < life
  {
  }

  lemma ClaimableReinstalls(h: History, s: Store, e: Store, user: UserId, d: DeviceId, p: Uuid, life: Time,
                            td: TokenDetails,
                            newId: DeviceId)
    requires SignedOut(h, e, user, d, p, life) && Claimable(s, e, user, d, p, life) && Fresh(h, td)
    ensures Rotates(s, user, p)
    ensures Rotate(s, user, p, td, newId, h.now) == Reinstalled(e, user, d, p, life, td)
  {
    var c := Retire(s, user, p).0;
    StillAhead(h, e, user, d, p, life);
    hide Retire, Fresh, Claimed, SignedOut, Reinstalled;
    FinishReinstalls(h, c, e, user, d, p, life, td, newId);
  }

  // A rotation signs the device out and in again, and keeps the token presented
  lemma RotateReinstalls(h: History, s: Store, p: Uuid, td: TokenDetails, newId: DeviceId)
    requires Inv(System(s, h)) && Usable(s, p) && Fresh(h, td)
    ensures Rotates(s, h.born[p].user, p)
    ensures var Birth(user, d, life) := h.born[p];
            Rotate(s, user, p, td, newId, h.now) == Reinstalled(RevokeSession(s, user, d), user, d, p, life, td)
  {
    var Birth(user, d, life) := h.born[p];
    hide Retire, RevokeSession, Fresh, Claimable, SignedOut, Reinstalled, Usable, Rotate, Rotates, HistoryOk, PairsOk,
      PendingOk, OneLivePerLogin, SidsOk, DevicesOk, TokenIndexOk, DeviceIndexOk, TimesOk;
    SignedOutLeaves(h, s, p);
    UsableIsClaimable(h, s, p);
    ClaimableReinstalls(h, s, RevokeSession(s, user, d), user, d, p, life, td, newId);
  }

  // One rotation of p that was started and not heard of again
  datatype Attempt = Attempt(td: TokenDetails, newId: DeviceId, upTo: Progress)

  function Retried(s: Store, user: UserId, p: Uuid, now: Time, attempts: seq<Attempt>): Store
    decreases |attempts|
  {
    if attempts == [] then s
    else
      var Attempt(td, newId, upTo) := attempts[0];
      Retried(RotateUpTo(s, user, p, td, newId, now, upTo), user, p, now, attempts[1..])
  }

  lemma {:induction false} RetriedIsClaimable(h: History, s: Store, e: Store, user: UserId, d: DeviceId, p: Uuid,
                                              life: Time,
                                              attempts: seq<Attempt>)
    requires SignedOut(h, e, user, d, p, life) && Claimable(s, e, user, d, p, life)
    requires forall a | a in attempts :: Fresh(h, a.td)
    ensures Claimable(Retried(s, user, p, h.now, attempts), e, user, d, p, life)
    decreases |attempts|
  {
    if attempts != [] {
      var Attempt(td, newId, upTo) := attempts[0];
      assert attempts[0] in attempts;
      hide Retire, Fresh, Claimed, SignedOut;
      StillAhead(h, e, user, d, p, life);
      ReplayClaims(h, Retire(s, user, p).0, e, user, d, p, life, td, newId, upTo);
      RetriedIsClaimable(h, RotateUpTo(s, user, p, td, newId, h.now, upTo), e, user, d, p, life, attempts[1..]);
    }
  }

  // However many rotations of a usable token failed after their record was written, or
  // completed without their answer arriving, the next completed one leads to the very store
  // it would have led to alone: no trace of the abandoned pairs is left.
  lemma RetryErasesAttempts(h: History, s: Store, p: Uuid, attempts: seq<Attempt>, td: TokenDetails, newId: DeviceId)
    requires Inv(System(s, h)) && Usable(s, p) && Fresh(h, td)
    requires forall a | a in attempts :: Fresh(h, a.td)
    ensures var user := h.born[p].user; var torn := Retried(s, user, p, h.now, attempts);
            && Rotates(torn, user, p)
            && Rotate(torn, user, p, td, newId, h.now) == Rotate(s, user, p, td, newId, h.now)
  {
    var Birth(user, d, life) := h.born[p];
    var e, torn := RevokeSession(s, user, d), Retried(s, user, p, h.now, attempts);
    hide Retire, RevokeSession, Fresh, Claimable, SignedOut, Reinstalled, Usable, Rotate, Rotates, Retried, HistoryOk,
      PairsOk, PendingOk, OneLivePerLogin, SidsOk, DevicesOk, TokenIndexOk, DeviceIndexOk, TimesOk;
    SignedOutLeaves(h, s, p);
    UsableIsClaimable(h, s, p);
    ClaimableReinstalls(h, s, e, user, d, p, life, td, newId);
    RetriedIsClaimable(h, s, e, user, d, p, life, attempts);
    ClaimableReinstalls(h, torn, e, user, d, p, life, td, newId);
  }
}
