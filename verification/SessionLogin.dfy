/**
 A login adds one pair and one device session; a pending predecessor may be kept beside
 it. Both keep the invariant.
 */
module SessionLogin {
  import opened SessionStore
  import opened SessionInvariant

  // ---- Logging in ----

  function Issue(h: History, user: UserId, d: DeviceId, td: TokenDetails): History {
    h.(latest := td.rtExpires,
       born := h.born[td.refresh := Birth(user, d, td.rtExpires)],
       mate := h.mate[td.access := Mate(td.refresh, td.atExpires)],
       logins := h.logins[d := user])
  }

  // A pair as the token issuer mints it: new uuids, the refresh token outliving the access
  // token and expiring no sooner than any refresh token before it
  predicate Fresh(h: History, td: TokenDetails) {
    && td.access != td.refresh
    && td.access !in h.born && td.access !in h.mate
    && td.refresh !in h.born && td.refresh !in h.mate
    && h.now < td.atExpires <= td.rtExpires
    && h.latest <= td.rtExpires
  }

  // No key of login d is left
  ghost predicate Vacant(h: History, s: Store, d: DeviceId) {
    && d !in s.device
    && (forall x | HasKey(s, x) :: Known(h, x) && BirthOf(h, x).login != d)
  }

  ghost predicate LoggedIn(h: History, s: Store, h2: History, t: Store, user: UserId, d: DeviceId, td: TokenDetails) {
    && Fresh(h, td)
    && Vacant(h, s, d)
    && (d in h.logins ==> h.logins[d] == user)
    && h2 == Issue(h, user, d, td)
    && t == CreateSession(s, user, td, d)
  }

  lemma LoginKeepsIssued(h: History, s: Store, h2: History, t: Store, user: UserId, d: DeviceId, td: TokenDetails)
    requires HistoryOk(h) && Issued(h, s) && LoggedIn(h, s, h2, t, user, d, td)
    ensures Issued(h2, t)
  {
    hide HasKey, SAdd, HistoryOk, Vacant;
  }

  lemma IssueKeepsHistory(h: History, user: UserId, d: DeviceId, td: TokenDetails)
    requires HistoryOk(h) && Fresh(h, td) && (d in h.logins ==> h.logins[d] == user)
    ensures HistoryOk(Issue(h, user, d, td))
  {
  }

  lemma LoginKeepsHistory(h: History, s: Store, h2: History, t: Store, user: UserId, d: DeviceId, td: TokenDetails)
    requires HistoryOk(h) && Issued(h, s) && LoggedIn(h, s, h2, t, user, d, td)
    ensures HistoryOk(h2) && Issued(h2, t)
  {
    LoginKeepsIssued(h, s, h2, t, user, d, td);
    hide HistoryOk, CreateSession, Issued, Vacant, Issue, Fresh;
    IssueKeepsHistory(h, user, d, td);
  }

  lemma LoginKeepsPairs(h: History, s: Store, h2: History, t: Store, user: UserId, d: DeviceId, td: TokenDetails)
    requires HistoryOk(h) && Issued(h, s) && PairsOk(h, s) && LoggedIn(h, s, h2, t, user, d, td) && Issued(h2, t)
    ensures PairsOk(h2, t)
  {
    hide HasKey, SAdd;
  }

  lemma LoginKeepsOneLive(h: History, s: Store, h2: History, t: Store, user: UserId, d: DeviceId, td: TokenDetails)
    requires Issued(h, s) && OneLivePerLogin(h, s) && LoggedIn(h, s, h2, t, user, d, td) && Issued(h2, t)
    ensures OneLivePerLogin(h2, t)
  {
    assert forall r | r in s.refresh :: HasKey(s, r);
  }

  lemma LoginKeepsPending(h: History, s: Store, h2: History, t: Store, user: UserId, d: DeviceId, td: TokenDetails)
    requires HistoryOk(h) && Issued(h, s) && PendingOk(h, s) && LoggedIn(h, s, h2, t, user, d, td) && Issued(h2, t)
    ensures PendingOk(h2, t)
  {
    assert td.refresh !in s.prev && td.refresh !in s.rot;
    hide HasKey, SAdd, Vacant;
  }

  lemma LoginKeepsSids(h: History, s: Store, h2: History, t: Store, user: UserId, d: DeviceId, td: TokenDetails)
    requires Issued(h, s) && SidsOk(h, s) && LoggedIn(h, s, h2, t, user, d, td) && Issued(h2, t)
    ensures SidsOk(h2, t)
  {
    hide HasKey, SAdd, Vacant;
  }

  lemma LoginKeepsDevices(h: History, s: Store, h2: History, t: Store, user: UserId, d: DeviceId, td: TokenDetails)
    requires Issued(h, s) && DevicesOk(h, s) && LoggedIn(h, s, h2, t, user, d, td) && Issued(h2, t)
    ensures DevicesOk(h2, t)
  {
    assert forall r | r in s.refresh :: HasKey(s, r);
    hide SAdd;
  }

  lemma SAddLists<T(!new)>(index: map<UserId, Index<T>>, user: UserId, ids: set<T>, exp: Time)
    ensures forall u, x :: Listed(SAdd(index, user, ids, exp), u, x) <==> Listed(index, u, x) || (u == user && x in ids)
    ensures forall u | u in SAdd(index, user, ids, exp) ::
            u == user || (u in index && SAdd(index, user, ids, exp)[u] == index[u])
    ensures user in SAdd(index, user, ids, exp) && SAdd(index, user, ids, exp)[user].exp == exp
    ensures forall u | u in index && u != user ::
            u in SAdd(index, user, ids, exp) && SAdd(index, user, ids, exp)[u] == index[u]
  {
  }

  lemma LoginKey(h: History, s: Store, h2: History, t: Store, user: UserId, d: DeviceId, td: TokenDetails)
    requires LoggedIn(h, s, h2, t, user, d, td)
    ensures forall x :: HasKey(t, x) <==> HasKey(s, x) || x == td.access || x == td.refresh
    ensures forall x | HasKey(s, x) :: KeyOf(t, x) == KeyOf(s, x)
    ensures KeyOf(t, td.access) == Token(user, td.refresh, td.atExpires)
    ensures KeyOf(t, td.refresh) == Token(user, td.access, td.rtExpires)
  {
    assert !HasKey(s, td.access) && !HasKey(s, td.refresh);
    hide SAdd;
  }

  lemma LoginBirths(h: History, s: Store, h2: History, t: Store, user: UserId, d: DeviceId, td: TokenDetails)
    requires HistoryOk(h) && LoggedIn(h, s, h2, t, user, d, td)
    ensures Known(h2, td.access) && Known(h2, td.refresh)
            && BirthOf(h2, td.access).user == BirthOf(h2, td.refresh).user == user
    ensures forall x | Known(h, x) :: Known(h2, x) && BirthOf(h2, x) == BirthOf(h, x) && LifeOf(h2, x) == LifeOf(h, x)
  {
    hide HasKey, SAdd, Vacant;
  }

  lemma LoginIndexesKeys(h: History, s: Store, h2: History, t: Store, user: UserId, d: DeviceId, td: TokenDetails)
    requires KeysIndexed(s) && TimesOk(h, s) && LoggedIn(h, s, h2, t, user, d, td)
    ensures KeysIndexed(t)
  {
    LoginKey(h, s, h2, t, user, d, td);
    SAddLists(s.tokens, user, {td.access, td.refresh}, td.rtExpires);
    assert forall u, x | Listed(s.tokens, u, x) :: u in s.tokens;
    hide HasKey, KeyOf, Known, BirthOf, LifeOf, Listed, SAdd, Vacant;
  }

  lemma LoginIndexIsKeys(h: History, s: Store, h2: History, t: Store, user: UserId, d: DeviceId, td: TokenDetails)
    requires HistoryOk(h) && IndexIsKeys(h, s) && LoggedIn(h, s, h2, t, user, d, td)
    ensures IndexIsKeys(h2, t)
  {
    LoginKey(h, s, h2, t, user, d, td);
    LoginBirths(h, s, h2, t, user, d, td);
    SAddLists(s.tokens, user, {td.access, td.refresh}, td.rtExpires);
    hide HistoryOk, HasKey, KeyOf, Known, BirthOf, LifeOf, Listed, SAdd, Vacant;
  }

  lemma LoginKeepsDeviceIndex(h: History, s: Store, h2: History, t: Store, user: UserId, d: DeviceId, td: TokenDetails)
    requires DeviceIndexOk(h, s) && TimesOk(h, s) && LoggedIn(h, s, h2, t, user, d, td)
    ensures DeviceIndexOk(h2, t)
  {
    SAddLists(s.devices, user, {d}, td.rtExpires);
    assert forall u, x | Listed(s.devices, u, x) :: u in s.devices;
    hide HasKey, SAdd, Listed, Vacant;
  }

  lemma LoginKeepsTimes(h: History, s: Store, h2: History, t: Store, user: UserId, d: DeviceId, td: TokenDetails)
    requires TimesOk(h, s) && LoggedIn(h, s, h2, t, user, d, td)
    ensures TimesOk(h2, t)
  {
    hide HasKey, Vacant;
  }

  lemma LoginKeepsInv(h: History, s: Store, h2: History, t: Store, user: UserId, d: DeviceId, td: TokenDetails)
    requires Inv(System(s, h)) && LoggedIn(h, s, h2, t, user, d, td)
    ensures Inv(System(t, h2))
  {
    hide HistoryOk, Issued, PairsOk, PendingOk, OneLivePerLogin, SidsOk, DevicesOk, KeysIndexed, IndexIsKeys,
      DeviceIndexOk, TimesOk, LoggedIn;
    LoginKeepsHistory(h, s, h2, t, user, d, td);
    LoginKeepsPairs(h, s, h2, t, user, d, td);
    LoginKeepsOneLive(h, s, h2, t, user, d, td);
    LoginKeepsPending(h, s, h2, t, user, d, td);
    LoginKeepsSids(h, s, h2, t, user, d, td);
    LoginKeepsDevices(h, s, h2, t, user, d, td);
    LoginIndexesKeys(h, s, h2, t, user, d, td);
    LoginIndexIsKeys(h, s, h2, t, user, d, td);
    LoginKeepsDeviceIndex(h, s, h2, t, user, d, td);
    LoginKeepsTimes(h, s, h2, t, user, d, td);
  }

  // ---- Keeping the token a pair replaced, able to replay ----

  function Retain(s: Store, user: UserId, p: Uuid, life: Time, n: Uuid): Store
    requires n in s.sid && user in s.tokens
  {
    s.(rot := s.rot[p := Token(user, n, life)],
       prev := s.prev[n := BackLink(p, life)],
       sid := s.sid[p := Sid(s.sid[n].device, life)],
       tokens := SAdd(s.tokens, user, {p}, s.tokens[user].exp))
  }

  // n is a live token without a predecessor; p is a dead token of the same login
  ghost predicate Retained(h: History, s: Store, t: Store, user: UserId, p: Uuid, life: Time, n: Uuid)
    requires Issued(h, s)
  {
    && n in s.refresh && n !in s.prev && n in s.sid && user in s.tokens
    && h.born[n].user == user && s.sid[n].device == h.born[n].login
    && p in h.born && h.born[p] == Birth(user, h.born[n].login, life)
    && !HasKey(s, p)
    && h.now < life <= h.born[n].life <= s.tokens[user].exp
    && t == Retain(s, user, p, life, n)
  }

  lemma RetainKeepsPending(h: History, s: Store, t: Store, user: UserId, p: Uuid, life: Time, n: Uuid)
    requires Issued(h, s) && PendingOk(h, s) && Retained(h, s, t, user, p, life, n)
    ensures Issued(h, t) && PendingOk(h, t)
  {
    hide SAdd;
  }

  lemma RetainKeepsSids(h: History, s: Store, t: Store, user: UserId, p: Uuid, life: Time, n: Uuid)
    requires Issued(h, s) && SidsOk(h, s) && Retained(h, s, t, user, p, life, n)
    ensures Issued(h, t) && SidsOk(h, t)
  {
    hide SAdd;
  }

  lemma RetainKey(h: History, s: Store, t: Store, user: UserId, p: Uuid, life: Time, n: Uuid)
    requires Issued(h, s) && Retained(h, s, t, user, p, life, n)
    ensures forall x :: HasKey(t, x) <==> HasKey(s, x) || x == p
    ensures forall x | HasKey(s, x) :: KeyOf(t, x) == KeyOf(s, x)
    ensures KeyOf(t, p) == Token(user, n, life)
  {
    hide SAdd;
  }

  lemma RetainKeepsTokens(h: History, s: Store, t: Store, user: UserId, p: Uuid, life: Time, n: Uuid)
    requires Issued(h, s) && TokenIndexOk(h, s) && Retained(h, s, t, user, p, life, n)
    ensures TokenIndexOk(h, t)
  {
    RetainKey(h, s, t, user, p, life, n);
    SAddLists(s.tokens, user, {p}, s.tokens[user].exp);
    assert Known(h, p) && BirthOf(h, p).user == user;
    hide Issued, HasKey, KeyOf, Known, BirthOf, LifeOf, Listed, SAdd;
  }

  lemma RetainKeepsTimes(h: History, s: Store, t: Store, user: UserId, p: Uuid, life: Time, n: Uuid)
    requires Issued(h, s) && TimesOk(h, s) && Retained(h, s, t, user, p, life, n)
    ensures TimesOk(h, t)
  {
  }

  lemma RetainKeepsInv(h: History, s: Store, t: Store, user: UserId, p: Uuid, life: Time, n: Uuid)
    requires Inv(System(s, h)) && Retained(h, s, t, user, p, life, n)
    ensures Inv(System(t, h))
  {
    RetainKeepsPending(h, s, t, user, p, life, n);
    RetainKeepsSids(h, s, t, user, p, life, n);
    RetainKeepsTokens(h, s, t, user, p, life, n);
    RetainKeepsTimes(h, s, t, user, p, life, n);
    assert t.access == s.access && t.refresh == s.refresh && t.device == s.device && t.devices == s.devices;
    hide HistoryOk, Issued, PendingOk, SidsOk, TokenIndexOk, TimesOk, Retained;
  }
}
