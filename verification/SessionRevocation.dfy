/**
 Revocations end whole logins: every one of them leaves the keys of the other logins as
 they were, and so keeps the invariant.
 */
module SessionRevocation {
  import opened Options
  import opened SessionStore
  import opened SessionInvariant

  // The login a uuid descends from is one of ended
  predicate Of(h: History, ended: set<DeviceId>, x: Uuid) {
    Known(h, x) && BirthOf(h, x).login in ended
  }

  function Keep<V>(h: History, m: map<Uuid, V>, ended: set<DeviceId>): map<Uuid, V> {
    map x | x in m && !Of(h, ended, x) :: m[x]
  }

  // t is s with every key of the ended logins gone and every other key untouched. The
  // per-user sets keep what they must index, and expire when they did.
  ghost predicate Ended(h: History, s: Store, t: Store, ended: set<DeviceId>) {
    && (t.access == Keep(h, s.access, ended))
    && (t.refresh == Keep(h, s.refresh, ended))
    && (t.rot == Keep(h, s.rot, ended))
    && (t.prev == Keep(h, s.prev, ended))
    && (t.sid == Keep(h, s.sid, ended))
    && (t.device == map d | d in s.device && d !in ended :: s.device[d])
    && TokensTrimmed(h, s, t, ended)
    && DevicesTrimmed(s, t, ended)
  }

  // Live uuids of the ended logins have left the set; all other live uuids are still in
  ghost predicate TokensTrimmed(h: History, s: Store, t: Store, ended: set<DeviceId>) {
    && (forall u, x | Listed(t.tokens, u, x) ::
          Listed(s.tokens, u, x) && (HasKey(s, x) ==> !Of(h, ended, x)))
    && (forall u, x | Listed(s.tokens, u, x) && HasKey(s, x) && !Of(h, ended, x) ::
          Listed(t.tokens, u, x))
    && (forall u | u in t.tokens :: u in s.tokens && t.tokens[u].exp == s.tokens[u].exp && t.tokens[u].ids != {})
  }

  ghost predicate DevicesTrimmed(s: Store, t: Store, ended: set<DeviceId>) {
    && (forall u, d | Listed(t.devices, u, d) ::
          Listed(s.devices, u, d) && (d in s.device ==> d !in ended))
    && (forall u, d | Listed(s.devices, u, d) && d in s.device && d !in ended ::
          Listed(t.devices, u, d))
    && (forall u | u in t.devices :: u in s.devices && t.devices[u].exp == s.devices[u].exp && t.devices[u].ids != {})
  }

  lemma EndedKeepsPairs(h: History, s: Store, t: Store, ended: set<DeviceId>)
    requires HistoryOk(h) && Issued(h, s) && PairsOk(h, s) && OneLivePerLogin(h, s)
    requires t.access == Keep(h, s.access, ended) && t.refresh == Keep(h, s.refresh, ended)
    requires Issued(h, t)
    ensures PairsOk(h, t) && OneLivePerLogin(h, t)
  {
  }

  lemma EndedKeepsPending(h: History, s: Store, t: Store, ended: set<DeviceId>)
    requires Issued(h, s) && PendingOk(h, s)
    requires t.refresh == Keep(h, s.refresh, ended) && t.rot == Keep(h, s.rot, ended)
             && t.prev == Keep(h, s.prev, ended)
    requires Issued(h, t)
    ensures PendingOk(h, t)
  {
  }

  lemma EndedKeepsSids(h: History, s: Store, t: Store, ended: set<DeviceId>)
    requires Issued(h, s) && SidsOk(h, s)
    requires t.refresh == Keep(h, s.refresh, ended) && t.rot == Keep(h, s.rot, ended) && t.sid == Keep(h, s.sid, ended)
    requires Issued(h, t)
    ensures SidsOk(h, t)
  {
  }

  lemma EndedKeepsDevices(h: History, s: Store, t: Store, ended: set<DeviceId>)
    requires Issued(h, s) && DevicesOk(h, s) && OneLivePerLogin(h, s)
    requires t.refresh == Keep(h, s.refresh, ended)
    requires t.device == map d | d in s.device && d !in ended :: s.device[d]
    requires Issued(h, t)
    ensures DevicesOk(h, t)
  {
  }

  lemma EndedKeepsKey(h: History, s: Store, t: Store, ended: set<DeviceId>, x: Uuid)
    requires t.access == Keep(h, s.access, ended) && t.refresh == Keep(h, s.refresh, ended)
             && t.rot == Keep(h, s.rot, ended)
    ensures HasKey(t, x) <==> HasKey(s, x) && !Of(h, ended, x)
    ensures HasKey(t, x) ==> KeyOf(t, x) == KeyOf(s, x)
  {
    hide Of;
  }

  lemma EndedKeepsTokens(h: History, s: Store, t: Store, ended: set<DeviceId>)
    requires TokenIndexOk(h, s)
    requires t.access == Keep(h, s.access, ended) && t.refresh == Keep(h, s.refresh, ended)
             && t.rot == Keep(h, s.rot, ended)
    requires TokensTrimmed(h, s, t, ended)
    ensures TokenIndexOk(h, t)
  {
    hide Keep, Of, Known, BirthOf, LifeOf, HasKey, KeyOf;
    forall x
      ensures HasKey(t, x) <==> HasKey(s, x) && !Of(h, ended, x)
      ensures HasKey(t, x) ==> KeyOf(t, x) == KeyOf(s, x)
    {
      EndedKeepsKey(h, s, t, ended, x);
    }
  }

  lemma EndedKeepsDeviceIndex(h: History, s: Store, t: Store, ended: set<DeviceId>)
    requires DeviceIndexOk(h, s) && DevicesTrimmed(s, t, ended)
    requires t.device == map d | d in s.device && d !in ended :: s.device[d]
    ensures DeviceIndexOk(h, t)
  {
  }

  lemma EndedKeepsTimes(h: History, s: Store, t: Store, ended: set<DeviceId>)
    requires Issued(h, s) && TimesOk(h, s) && Ended(h, s, t, ended)
    ensures Issued(h, t) && TimesOk(h, t)
  {
  }

  lemma EndedKeepsInv(h: History, s: Store, t: Store, ended: set<DeviceId>)
    requires Inv(System(s, h)) && Ended(h, s, t, ended)
    ensures Inv(System(t, h))
  {
    hide HistoryOk, Issued, PairsOk, PendingOk, OneLivePerLogin, SidsOk, DevicesOk, TokenIndexOk, DeviceIndexOk,
      TimesOk, Keep, TokensTrimmed, DevicesTrimmed;
    EndedKeepsTimes(h, s, t, ended);
    EndedKeepsPairs(h, s, t, ended);
    EndedKeepsPending(h, s, t, ended);
    EndedKeepsSids(h, s, t, ended);
    EndedKeepsDevices(h, s, t, ended);
    EndedKeepsTokens(h, s, t, ended);
    EndedKeepsDeviceIndex(h, s, t, ended);
  }

  // ---- Revocations end whole logins ----

  // The token whose rotation handed out r and is still pending
  function Predecessor(s: Store, r: Uuid): set<Uuid> {
    if r in s.prev then {s.prev[r].previous} else {}
  }

  // The keys of the login whose live token is r
  lemma KeysOfLogin(h: History, s: Store, r: Uuid)
    requires Coupled(h, s) && r in s.refresh
    ensures var ended := {h.born[r].login};
            && s.access - {s.refresh[r].partner} == Keep(h, s.access, ended)
            && s.refresh - {r} == Keep(h, s.refresh, ended)
  {
    assert forall x | x in s.access :: Of(h, {h.born[r].login}, x) <==> x == s.refresh[r].partner;
  }

  lemma PendingKeysOfLogin(h: History, s: Store, r: Uuid)
    requires Issued(h, s) && PendingOk(h, s) && OneLivePerLogin(h, s) && r in s.refresh
    ensures var ended := {h.born[r].login};
            && s.rot - Predecessor(s, r) == Keep(h, s.rot, ended)
            && s.prev - {r} == Keep(h, s.prev, ended)
  {
    assert forall x | x in s.rot :: Of(h, {h.born[r].login}, x) <==> s.rot[x].partner == r;
  }

  lemma SidsOfLogin(h: History, s: Store, r: Uuid)
    requires Issued(h, s) && PendingOk(h, s) && OneLivePerLogin(h, s) && SidsOk(h, s) && r in s.refresh
    ensures s.sid - {r} - Predecessor(s, r) == Keep(h, s.sid, {h.born[r].login})
  {
    assert forall x | x in s.rot :: Of(h, {h.born[r].login}, x) <==> s.rot[x].partner == r;
  }

  lemma DevicesOfLogin(h: History, s: Store, r: Uuid)
    requires Coupled(h, s) && r in s.refresh
    ensures s.device - {h.born[r].login} == map d | d in s.device && d !in {h.born[r].login} :: s.device[d]
  {
  }

  // Both halves of a pair lead to the same revocation
  lemma RevokeByAccessIsByRefresh(h: History, s: Store, a: Uuid)
    requires Coupled(h, s) && a in s.access
    ensures RevokeByAccess(s, a) == RevokeByRefresh(s, s.access[a].partner)
  {
    var r := s.access[a].partner;
    assert {a, r} == {r, a};
  }

  ghost predicate Trimmed<T(!new)>(index: map<UserId, Index<T>>, after: map<UserId, Index<T>>, user: UserId,
                            ids: set<T>) {
    && (forall u, x :: Listed(after, u, x) <==> Listed(index, u, x) && (u != user || x !in ids))
    && (forall u | u in after :: u in index && after[u].exp == index[u].exp && after[u].ids != {})
  }

  lemma SRemTrims<T(!new)>(index: map<UserId, Index<T>>, user: UserId, ids: set<T>)
    requires forall u | u in index :: index[u].ids != {}
    ensures Trimmed(index, SRem(index, user, ids), user, ids)
  {
    var rest := Ids(index, user) - ids;
    assert forall x :: Listed(index, user, x) && x !in ids <==> x in rest;
  }

  function TokensWithout(s: Store, r: Uuid): map<UserId, Index<Uuid>>
    requires r in s.refresh
  {
    var user := s.refresh[r].user;
    var pair := SRem(s.tokens, user, {r, s.refresh[r].partner});
    if r in s.prev then SRem(pair, user, {s.prev[r].previous}) else pair
  }

  lemma TokensWithoutTrims(s: Store, r: Uuid)
    requires r in s.refresh && forall u | u in s.tokens :: s.tokens[u].ids != {}
    ensures Trimmed(s.tokens, TokensWithout(s, r), s.refresh[r].user, {r, s.refresh[r].partner} + Predecessor(s, r))
  {
    var user := s.refresh[r].user;
    var pair := SRem(s.tokens, user, {r, s.refresh[r].partner});
    SRemTrims(s.tokens, user, {r, s.refresh[r].partner});
    SRemTrims(pair, user, Predecessor(s, r));
    hide SRem;
  }

  lemma LoginKeys(h: History, s: Store, r: Uuid, x: Uuid)
    requires Coupled(h, s) && r in s.refresh && HasKey(s, x)
    ensures Of(h, {h.born[r].login}, x) <==> x in {r, s.refresh[r].partner} + Predecessor(s, r)
  {
    if x in s.rot {
      assert s.prev[s.rot[x].partner].previous == x;
    }
  }

  lemma TokensOfLogin(h: History, s: Store, t: Store, r: Uuid)
    requires Coupled(h, s) && TokenIndexOk(h, s) && TimesOk(h, s) && r in s.refresh
    requires t.tokens == TokensWithout(s, r)
    ensures TokensTrimmed(h, s, t, {h.born[r].login})
  {
    TokensWithoutTrims(s, r);
    var ended := {h.born[r].login};
    forall x | HasKey(s, x)
      ensures Of(h, ended, x) <==> x in {r, s.refresh[r].partner} + Predecessor(s, r)
      ensures forall u | Listed(s.tokens, u, x) && Of(h, ended, x) :: u == s.refresh[r].user
    {
      LoginKeys(h, s, r, x);
    }
    hide PairsOk, PendingOk, OneLivePerLogin, SidsOk, DevicesOk, TokensWithout, Of, TokenIndexOk, HistoryOk, Issued;
  }

  lemma RevokeByRefreshFields(s: Store, r: Uuid)
    requires r in s.refresh
    ensures var t, previous := RevokeByRefresh(s, r), Predecessor(s, r);
            && t.access == s.access - {s.refresh[r].partner}
            && t.refresh == s.refresh - {r}
            && t.rot == s.rot - previous
            && t.prev == s.prev - {r}
            && t.sid == s.sid - {r} - previous
            && t.tokens == TokensWithout(s, r)
            && t.device == s.device && t.devices == s.devices
  {
    if r in s.prev {
      assert s.sid - {r} - {s.prev[r].previous} == RevokeByRefresh(s, r).sid;
    } else {
      assert s.prev - {r} == s.prev;
      assert s.rot - {} == s.rot && s.sid - {r} - {} == s.sid - {r};
    }
  }

  lemma DevicesOfLoginTrimmed(h: History, s: Store, t: Store, user: UserId, d: DeviceId)
    requires DeviceIndexOk(h, s) && TimesOk(h, s) && d in s.device && s.device[d].user == user
    requires t.devices == SRem(s.devices, user, {d})
    ensures DevicesTrimmed(s, t, {d})
  {
    SRemTrims(s.devices, user, {d});
    hide SRem;
  }

  lemma NewestToken(h: History, s: Store, d: DeviceId)
    requires Issued(h, s) && DevicesOk(h, s) && d in s.device
    ensures s.device[d].refresh in s.refresh && h.born[s.device[d].refresh].login == d
  {
  }

  // Revoking a live token takes the keys of its login
  lemma RevokedLoginKeys(h: History, s: Store, r: Uuid)
    requires Coupled(h, s) && TokenIndexOk(h, s) && TimesOk(h, s) && r in s.refresh
    ensures var ended, t := {h.born[r].login}, RevokeByRefresh(s, r);
            && t.access == Keep(h, s.access, ended) && t.refresh == Keep(h, s.refresh, ended)
            && t.rot == Keep(h, s.rot, ended) && t.prev == Keep(h, s.prev, ended) && t.sid == Keep(h, s.sid, ended)
            && TokensTrimmed(h, s, t, ended) && t.device == s.device && t.devices == s.devices
  {
    hide HistoryOk, PairsOk, PendingOk, OneLivePerLogin, SidsOk, DevicesOk, TokenIndexOk, TimesOk, RevokeByRefresh,
      Keep, TokensTrimmed, TokensWithout, Predecessor;
    RevokeByRefreshFields(s, r);
    KeysOfLogin(h, s, r);
    PendingKeysOfLogin(h, s, r);
    SidsOfLogin(h, s, r);
    TokensOfLogin(h, s, RevokeByRefresh(s, r), r);
  }

  // With its keys gone, ending the device session ends the login
  lemma EndedWithSession(h: History, s: Store, t: Store, user: UserId, d: DeviceId)
    requires t.access == Keep(h, s.access, {d}) && t.refresh == Keep(h, s.refresh, {d}) && t.rot == Keep(h, s.rot, {d})
    requires t.prev == Keep(h, s.prev, {d}) && t.sid == Keep(h, s.sid, {d}) && TokensTrimmed(h, s, t, {d})
    requires t.device == s.device && t.devices == s.devices
    requires s.device - {d} == map k | k in s.device && k !in {d} :: s.device[k]
    requires DevicesTrimmed(s, EndSession(t, user, d), {d})
    ensures Ended(h, s, EndSession(t, user, d), {d})
  {
    hide Keep, DevicesTrimmed, SRem, Of, HasKey, Listed;
  }

  // Revoking a device session ends its login, and no other
  lemma RevokeSessionEnds(h: History, s: Store, user: UserId, d: DeviceId)
    requires Inv(System(s, h)) && d in s.device && s.device[d].user == user
    ensures Ended(h, s, RevokeSession(s, user, d), {d})
  {
    var r, t := s.device[d].refresh, RevokeSession(s, user, d);
    hide SRem, HistoryOk, Issued, PairsOk, PendingOk, OneLivePerLogin, SidsOk, DevicesOk, TokenIndexOk, DeviceIndexOk,
      TimesOk, RevokeByRefresh, Keep, TokensTrimmed, DevicesTrimmed, Ended;
    NewestToken(h, s, d);
    RevokedLoginKeys(h, s, r);
    DevicesOfLogin(h, s, r);
    DevicesOfLoginTrimmed(h, s, t, user, d);
    EndedWithSession(h, s, RevokeByRefresh(s, r), user, d);
  }

  // A logout revokes the device session of its access token
  lemma LogoutRevokesSession(h: History, s: Store, a: Uuid)
    requires Inv(System(s, h)) && a in s.access
    ensures var user, d := s.access[a].user, h.born[h.mate[a].refresh].login;
            && SessionOfAccess(s, a) == Some(d)
            && d in s.device && s.device[d].user == user
            && Logout(s, a) == RevokeSession(s, user, d)
  {
    RevokeByAccessIsByRefresh(h, s, a);
    hide RevokeByAccess, RevokeByRefresh, SRem, OneLivePerLogin, TokenIndexOk, DeviceIndexOk, TimesOk;
  }

  function LoginsOf(h: History, user: UserId): set<DeviceId> {
    set d | d in h.logins && h.logins[d] == user
  }

  lemma KeyOwner(h: History, s: Store, x: Uuid)
    requires HistoryOk(h) && Issued(h, s) && PairsOk(h, s) && PendingOk(h, s) && HasKey(s, x)
    ensures Known(h, x) && KeyOf(s, x).user == BirthOf(h, x).user
  {
  }

  // Every key sits in the set of the user its token was issued to, and in no other
  lemma KeyIndexed(h: History, s: Store, x: Uuid)
    requires HistoryOk(h) && Issued(h, s) && PairsOk(h, s) && PendingOk(h, s) && TokenIndexOk(h, s) && HasKey(s, x)
    ensures Known(h, x)
    ensures forall u :: Listed(s.tokens, u, x) <==> u == BirthOf(h, x).user
  {
    KeyOwner(h, s, x);
    hide HistoryOk, Issued, PairsOk, PendingOk, Known, BirthOf, LifeOf, Listed;
  }

  lemma KnownLogin(h: History, user: UserId, x: Uuid)
    requires HistoryOk(h) && Known(h, x)
    ensures Of(h, LoginsOf(h, user), x) <==> BirthOf(h, x).user == user
  {
  }

  lemma KeyOfUser(h: History, s: Store, user: UserId, x: Uuid)
    requires HistoryOk(h) && Issued(h, s) && PairsOk(h, s) && PendingOk(h, s) && TokenIndexOk(h, s) && HasKey(s, x)
    ensures Of(h, LoginsOf(h, user), x) <==> x in Ids(s.tokens, user)
    ensures Of(h, LoginsOf(h, user), x) ==> forall u | Listed(s.tokens, u, x) :: u == user
  {
    KeyIndexed(h, s, x);
    KnownLogin(h, user, x);
    assert x in Ids(s.tokens, user) <==> Listed(s.tokens, user, x);
    hide HistoryOk, Issued, PairsOk, PendingOk, TokenIndexOk, Of, LoginsOf, Ids;
  }

  ghost predicate UserKeys(h: History, s: Store, user: UserId) {
    && (forall x | HasKey(s, x) :: Of(h, LoginsOf(h, user), x) <==> x in Ids(s.tokens, user))
    && (forall u, x | HasKey(s, x) && Listed(s.tokens, u, x) && Of(h, LoginsOf(h, user), x) :: u == user)
  }

  lemma KeysOfUser(h: History, s: Store, user: UserId)
    requires Inv(System(s, h))
    ensures UserKeys(h, s, user)
  {
    hide HistoryOk, Issued, PairsOk, PendingOk, OneLivePerLogin, SidsOk, DevicesOk, TokenIndexOk, DeviceIndexOk,
      TimesOk, Of, LoginsOf, Ids, HasKey;
    forall x | HasKey(s, x)
      ensures Of(h, LoginsOf(h, user), x) <==> x in Ids(s.tokens, user)
      ensures Of(h, LoginsOf(h, user), x) ==> forall u | Listed(s.tokens, u, x) :: u == user
    {
      KeyOfUser(h, s, user, x);
    }
  }

  lemma MinusIsKeep<V>(h: History, m: map<Uuid, V>, ended: set<DeviceId>, uuids: set<Uuid>)
    requires forall x | x in m :: Of(h, ended, x) <==> x in uuids
    ensures m - uuids == Keep(h, m, ended)
  {
  }

  lemma RevokeAllKeeps(h: History, s: Store, user: UserId)
    requires UserKeys(h, s, user) && Issued(h, s) && PendingOk(h, s) && SidsOk(h, s)
    ensures var ended, t := LoginsOf(h, user), RevokeAll(s, user);
            && t.access == Keep(h, s.access, ended)
            && t.refresh == Keep(h, s.refresh, ended)
            && t.rot == Keep(h, s.rot, ended)
            && t.prev == Keep(h, s.prev, ended)
            && t.sid == Keep(h, s.sid, ended)
  {
    var ended, uuids := LoginsOf(h, user), Ids(s.tokens, user);
    assert forall n | n in s.prev :: HasKey(s, n);
    assert forall r | r in s.sid :: HasKey(s, r);
    hide Issued, PendingOk, SidsOk, Of, LoginsOf, Ids, Keep;
    MinusIsKeep(h, s.access, ended, uuids);
    MinusIsKeep(h, s.refresh, ended, uuids);
    MinusIsKeep(h, s.rot, ended, uuids);
    MinusIsKeep(h, s.prev, ended, uuids);
    MinusIsKeep(h, s.sid, ended, uuids);
  }

  lemma DropUser<T(!new)>(index: map<UserId, Index<T>>, user: UserId)
    ensures forall u, x :: Listed(index - {user}, u, x) <==> u != user && Listed(index, u, x)
    ensures forall u | u in index - {user} :: u != user && u in index && (index - {user})[u] == index[u]
  {
  }

  lemma RevokeAllTrims(h: History, s: Store, user: UserId)
    requires UserKeys(h, s, user) && TimesOk(h, s)
    ensures TokensTrimmed(h, s, RevokeAll(s, user), LoginsOf(h, user))
  {
    DropUser(s.tokens, user);
    assert forall x :: x in Ids(s.tokens, user) <==> Listed(s.tokens, user, x);
    hide Of, LoginsOf, HasKey, Listed, Ids;
  }

  lemma DeviceOfUser(h: History, s: Store, d: DeviceId)
    requires HistoryOk(h) && Issued(h, s) && DevicesOk(h, s) && DeviceIndexOk(h, s) && d in s.device
    ensures d in h.logins && s.device[d].user == h.logins[d]
    ensures Listed(s.devices, h.logins[d], d)
    ensures forall u :: Listed(s.devices, u, d) <==> u == h.logins[d]
    ensures Usable(s, s.device[d].refresh)
  {
    assert s.device[d].user == h.born[s.device[d].refresh].user;
    assert Indexed(s.devices, s.device[d].user, d, s.device[d].exp);
  }

  ghost predicate UserDevices(h: History, s: Store) {
    forall d | d in s.device ::
      && d in h.logins && s.device[d].user == h.logins[d]
      && Listed(s.devices, h.logins[d], d)
      && (forall u | Listed(s.devices, u, d) :: u == h.logins[d])
      && Usable(s, s.device[d].refresh)
  }

  lemma DevicesOfUsers(h: History, s: Store)
    requires Inv(System(s, h))
    ensures UserDevices(h, s)
  {
    hide HistoryOk, Issued, PairsOk, PendingOk, OneLivePerLogin, SidsOk, DevicesOk, TokenIndexOk, DeviceIndexOk,
      TimesOk, Usable;
    forall d | d in s.device
      ensures d in h.logins && s.device[d].user == h.logins[d]
      ensures Listed(s.devices, h.logins[d], d)
      ensures forall u | Listed(s.devices, u, d) :: u == h.logins[d]
      ensures Usable(s, s.device[d].refresh)
    {
      DeviceOfUser(h, s, d);
    }
  }

  lemma LoginListed(h: History, s: Store, user: UserId)
    requires UserDevices(h, s)
    ensures forall d | d in s.device :: d in LoginsOf(h, user) <==> Listed(s.devices, user, d)
  {
    hide Usable, Listed;
  }

  lemma RevokeAllDevices(h: History, s: Store, user: UserId)
    requires UserDevices(h, s) && TimesOk(h, s)
    ensures var t := RevokeAll(s, user);
            && (t.device == map d | d in s.device && d !in LoginsOf(h, user) :: s.device[d])
            && DevicesTrimmed(s, t, LoginsOf(h, user))
  {
    LoginListed(h, s, user);
    DropUser(s.devices, user);
    assert forall d :: d in Ids(s.devices, user) <==> Listed(s.devices, user, d);
    forall u, d | Listed(s.devices, u, d) && d in s.device && d !in LoginsOf(h, user)
      ensures Listed(s.devices - {user}, u, d)
    {
    }
    assert forall d | d in s.device :: d in LoginsOf(h, user) <==> d in Ids(s.devices, user);
    hide Usable, Listed, Ids, LoginsOf, UserDevices;
  }

  // Revoking everything ends all logins of the user, and no other
  lemma RevokeAllEnds(h: History, s: Store, user: UserId)
    requires Inv(System(s, h))
    ensures Ended(h, s, RevokeAll(s, user), LoginsOf(h, user))
  {
    hide HistoryOk, Issued, PairsOk, PendingOk, OneLivePerLogin, SidsOk, DevicesOk, TokenIndexOk, DeviceIndexOk,
      TimesOk, Keep, TokensTrimmed, DevicesTrimmed, LoginsOf, UserKeys, UserDevices, RevokeAll;
    KeysOfUser(h, s, user);
    DevicesOfUsers(h, s);
    RevokeAllKeeps(h, s, user);
    RevokeAllTrims(h, s, user);
    RevokeAllDevices(h, s, user);
  }

  lemma LiveDevicesAreLogins(h: History, s: Store, user: UserId)
    requires UserDevices(h, s)
    ensures LiveDevices(s, user) == set d | d in s.device && h.logins[d] == user
  {
    hide Usable;
    forall d | d in s.device && h.logins[d] == user
      ensures d in LiveDevices(s, user)
    {
      assert Listed(s.devices, user, d);
    }
  }

  lemma ForgetTrims(h: History, s: Store, user: UserId)
    requires UserDevices(h, s) && TimesOk(h, s)
    ensures DevicesTrimmed(s, Forget(s, user), {})
    ensures Forget(s, user).device == s.device
  {
    LiveDevicesAreLogins(h, s, user);
    var dead := Ids(s.devices, user) - LiveDevices(s, user);
    forall d | d in dead
      ensures d !in s.device
    {
      assert Listed(s.devices, user, d);
    }
    SRemTrims(s.devices, user, dead);
    hide SRem, LiveDevices, Usable;
  }

  lemma KeepNone<V>(h: History, m: map<Uuid, V>)
    ensures Keep(h, m, {}) == m
  {
  }

  lemma TokensUntouched(h: History, s: Store, t: Store)
    requires TimesOk(h, s) && t.tokens == s.tokens
    ensures TokensTrimmed(h, s, t, {})
  {
  }

  // Listing answers with the devices of the user's standing logins, and ends none: only
  // stale ids leave the set
  lemma ForgetEndsNothing(h: History, s: Store, user: UserId)
    requires Inv(System(s, h))
    ensures LiveDevices(s, user) == set d | d in s.device && h.logins[d] == user
    ensures Ended(h, s, Forget(s, user), {})
  {
    hide HistoryOk, Issued, PairsOk, PendingOk, OneLivePerLogin, SidsOk, DevicesOk, TokenIndexOk, DeviceIndexOk,
      TimesOk, Keep, LiveDevices, UserDevices, SRem, TokensTrimmed, DevicesTrimmed;
    DevicesOfUsers(h, s);
    LiveDevicesAreLogins(h, s, user);
    ForgetTrims(h, s, user);
    TokensUntouched(h, s, Forget(s, user));
    KeepNone(h, s.access);
    KeepNone(h, s.refresh);
    KeepNone(h, s.rot);
    KeepNone(h, s.prev);
    KeepNone(h, s.sid);
  }
}
