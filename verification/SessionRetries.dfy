/**
 A rotation that failed, or whose answer was lost, while others go on: other logins come,
 refresh and go, sessions are listed, and time passes, before the client tries again.
 */
module SessionRetries {
  import opened Options
  import opened SessionStore
  import opened SessionInvariant
  import opened SessionRevocation
  import opened SessionLogin
  import opened SessionRotation
  import opened SessionRuns
  import opened SessionTheorems
  import opened UnfinishedRotation

  // ---- The next try claims the token ----

  lemma SameMap<V>(m: map<Uuid, V>, other: map<Uuid, V>, r: Retry)
    requires SameKeys(m, other, r) && forall k | r.Owns(k) :: k !in m && k !in other
    ensures m == other
  {
    forall k
      ensures k in m <==> k in other
      ensures k in m ==> m[k] == other[k]
    {
      if r.Owns(k) {
        assert k !in m && k !in other;
      }
    }
  }

  lemma ClaimedTokens(x: Store, e: Store, r: Retry)
    requires Standing(x.access, x.refresh, x.rot, x.prev, x.sid, r)
    requires TokensBeside(x.access, e.access, r) && TokensBeside(x.refresh, e.refresh, r)
             && TokensBeside(x.rot, e.rot, r)
    ensures x.access - {r.a} == e.access && x.refresh - {r.n} == e.refresh && x.rot - {r.p} == e.rot
  {
    SameMap(x.access - {r.a}, e.access, r);
    SameMap(x.refresh - {r.n}, e.refresh, r);
    SameMap(x.rot - {r.p}, e.rot, r);
  }

  lemma ClaimedLinks(x: Store, e: Store, r: Retry)
    requires Standing(x.access, x.refresh, x.rot, x.prev, x.sid, r)
    requires LinksBeside(x.prev, e.prev, r) && SidsBeside(x.sid, e.sid, r)
    ensures x.prev - {r.n} == e.prev && x.sid - {r.n} == e.sid[r.p := Sid(r.d, r.life)]
  {
    SameMap(x.prev - {r.n}, e.prev, r);
    SameMap(x.sid - {r.n, r.p}, e.sid, r);
    var m, other := x.sid - {r.n}, e.sid[r.p := Sid(r.d, r.life)];
    forall k
      ensures k in m <==> k in other
      ensures k in m ==> m[k] == other[k]
    {
      assert k in x.sid - {r.n, r.p} <==> k in e.sid;
    }
  }

  lemma ClaimedDevice(m: map<DeviceId, Device>, other: map<DeviceId, Device>, r: Retry)
    requires DevicesBeside(m, other, r)
    ensures m - {r.d} == other
  {
    forall k
      ensures k in m - {r.d} <==> k in other
      ensures k in other ==> m[k] == other[k]
    {
      assert k != r.d ==> (k in m <==> k in other);
    }
  }

  lemma ClaimedFields(x: Store, r: Retry)
    requires Standing(x.access, x.refresh, x.rot, x.prev, x.sid, r)
    ensures var (c, claimed) := Retire(x, r.user, r.p);
            && claimed == Some(r.life)
            && c.access == x.access - {r.a} && c.refresh == x.refresh - {r.n} && c.rot == x.rot - {r.p}
            && c.prev == x.prev - {r.n} && c.sid == x.sid - {r.n} && c.device == x.device && c.devices == x.devices
            && c.tokens == if r.n in x.refresh then SRem(x.tokens, r.user, {r.n, r.a}) else x.tokens
  {
    hide SRem;
  }

  lemma BesideIsClaimable(x: Store, e: Store, r: Retry)
    requires Beside(x, e, r)
    ensures Claimable(x, e, r.user, r.d, r.p, r.life)
    ensures var c := Retire(x, r.user, r.p).0;
            Lasts(c.tokens, r.user, r.life) && Lasts(c.devices, r.user, r.life)
  {
    var c := Retire(x, r.user, r.p).0;
    ClaimedFields(x, r);
    hide Retire;
    ClaimedTokens(x, e, r);
    ClaimedLinks(x, e, r);
    ClaimedDevice(x.device, e.device, r);
    ClaimedSets(x, e, r);
    hide TokensBeside, LinksBeside, SidsBeside, DevicesBeside, Standing, SRem, Ids;
  }

  lemma ClaimedSets(x: Store, e: Store, r: Retry)
    requires SetsBeside(x.tokens, e.tokens, r.Own(), r) && PairListed(x.refresh, x.tokens, r)
    requires r.p != r.n && r.p != r.a
    ensures var tokens := if r.n in x.refresh then SRem(x.tokens, r.user, {r.n, r.a}) else x.tokens;
            SameSets(tokens, e.tokens, r.user, {r.p}) && r.p in Ids(tokens, r.user)
            && Lasts(tokens, r.user, r.life)
  {
    var tokens := if r.n in x.refresh then SRem(x.tokens, r.user, {r.n, r.a}) else x.tokens;
    SRemIds(x.tokens, r.user, {r.n, r.a});
    assert forall k :: k in Ids(e.tokens, r.user) <==> Listed(e.tokens, r.user, k);
    forall k
      ensures k in Ids(tokens, r.user) + {r.p} <==> k in Ids(e.tokens, r.user) + {r.p}
    {
      assert k in Ids(x.tokens, r.user) + r.Own() <==> k in Ids(e.tokens, r.user) + r.Own();
    }
    assert Ids(tokens, r.user) + {r.p} == Ids(e.tokens, r.user) + {r.p};
  }

  // ---- A try leaves its record ----

  // A store without the login knows nothing of a new pair either
  lemma ClearKeys(h: History, e: Store, r: Retry, td: TokenDetails)
    requires HistoryOk(h) && Issued(h, e) && PairsOk(h, e) && PendingOk(h, e)
    requires SignedOut(h, e, r.user, r.d, r.p, r.life) && Fresh(h, td) && r.n == td.refresh && r.a == td.access
    ensures TokensBeside(e.access, e.access, r) && TokensBeside(e.refresh, e.refresh, r)
            && TokensBeside(e.rot, e.rot, r) && LinksBeside(e.prev, e.prev, r)
  {
  }

  lemma ClearDevices(h: History, e: Store, r: Retry, td: TokenDetails)
    requires Inv(System(e, h))
    requires SignedOut(h, e, r.user, r.d, r.p, r.life) && Fresh(h, td) && r.n == td.refresh && r.a == td.access
    ensures SidsBeside(e.sid, e.sid, r) && DevicesBeside(e.device, e.device, r)
  {
    hide OneLivePerLogin, TokenIndexOk, DeviceIndexOk, TimesOk;
  }

  lemma ClearSets(h: History, e: Store, r: Retry, td: TokenDetails)
    requires HistoryOk(h) && IndexIsKeys(h, e)
    requires SignedOut(h, e, r.user, r.d, r.p, r.life) && Fresh(h, td) && r.n == td.refresh && r.a == td.access
    ensures forall u, k | Listed(e.tokens, u, k) :: k !in r.Own()
  {
    forall u, k | Listed(e.tokens, u, k)
      ensures k !in r.Own()
    {
      assert Known(h, k) && BirthOf(h, k).user == u;
      assert k in Ids(e.tokens, u);
    }
  }

  // The claim left the user's sets alone, or took single uuids out of them
  ghost predicate Leaves(c: Store, e: Store, r: Retry) {
    && Claimed(c, e, r.user, r.d, r.p, r.life)
    && (forall u :: !Listed(e.devices, u, r.d))
    && Lasts(c.tokens, r.user, r.life) && Lasts(e.tokens, r.user, r.life)
    && Lasts(c.devices, r.user, r.life) && Lasts(e.devices, r.user, r.life)
  }

  lemma OwnToken(m: map<Uuid, Token>, r: Retry, k: Uuid, token: Token)
    requires TokensBeside(m, m, r) && r.Owns(k)
    ensures TokensBeside(m[k := token], m, r)
  {
  }

  lemma OwnLink(m: map<Uuid, BackLink>, r: Retry, k: Uuid, link: BackLink)
    requires LinksBeside(m, m, r) && r.Owns(k)
    ensures LinksBeside(m[k := link], m, r)
  {
  }

  lemma OwnSid(m: map<Uuid, Sid>, other: map<Uuid, Sid>, r: Retry, k: Uuid, sid: Sid)
    requires SidsBeside(m, other, r) && r.Owns(k)
    ensures SidsBeside(m[k := sid], other, r)
  {
  }

  lemma FinishKeys(h: History, c: Store, e: Store, r: Retry, td: TokenDetails, newId: DeviceId, upTo: Progress)
    requires Inv(System(e, h)) && SignedOut(h, e, r.user, r.d, r.p, r.life)
    requires Claimed(c, e, r.user, r.d, r.p, r.life) && Fresh(h, td) && r.n == td.refresh && r.a == td.access
    ensures var x := Finish(c, r.user, r.p, r.life, td, newId, upTo);
            && TokensBeside(x.access, e.access, r) && TokensBeside(x.refresh, e.refresh, r)
            && TokensBeside(x.rot, e.rot, r) && LinksBeside(x.prev, e.prev, r)
  {
    ClearKeys(h, e, r, td);
    FreshIsAbsent(h, c, e, r.user, r.d, r.p, r.life, td);
    hide Inv, SignedOut, SameSets, SAdd, Ids, TokensBeside, LinksBeside, Fresh, Finish;
    FinishFields(c, r.user, r.d, r.p, r.life, td, newId, upTo);
    OwnToken(e.access, r, r.a, Token(r.user, r.n, td.atExpires));
    OwnToken(e.refresh, r, r.n, Token(r.user, r.a, td.rtExpires));
    OwnToken(e.rot, r, r.p, Token(r.user, r.n, r.life));
    OwnLink(e.prev, r, r.n, BackLink(r.p, r.life));
  }

  lemma OwnDevice(m: map<DeviceId, Device>, e: map<DeviceId, Device>, r: Retry, device: Device)
    requires DevicesBeside(e, e, r) && m - {r.d} == e
    ensures DevicesBeside(m, e, r) && DevicesBeside(m[r.d := device], e, r)
  {
    forall k | k != r.d
      ensures k in m <==> k in e
      ensures k in m ==> m[k] == e[k]
    {
      assert k in m <==> k in m - {r.d};
    }
  }

  lemma FinishLinks(h: History, c: Store, e: Store, r: Retry, td: TokenDetails, newId: DeviceId, upTo: Progress)
    requires Inv(System(e, h)) && SignedOut(h, e, r.user, r.d, r.p, r.life)
    requires Claimed(c, e, r.user, r.d, r.p, r.life) && Fresh(h, td) && r.n == td.refresh && r.a == td.access
    ensures var x := Finish(c, r.user, r.p, r.life, td, newId, upTo);
            SidsBeside(x.sid, e.sid, r) && DevicesBeside(x.device, e.device, r)
  {
    ClearDevices(h, e, r, td);
    FreshIsAbsent(h, c, e, r.user, r.d, r.p, r.life, td);
    hide Inv, SignedOut, SameSets, SAdd, Ids, SidsBeside, DevicesBeside, Fresh, Finish;
    FinishFields(c, r.user, r.d, r.p, r.life, td, newId, upTo);
    OwnSid(e.sid, e.sid, r, r.p, Sid(r.d, r.life));
    OwnSid(c.sid, e.sid, r, r.n, Sid(r.d, td.rtExpires));
    OwnDevice(c.device, e.device, r, Device(r.user, r.n, td.rtExpires));
  }

  lemma FinishStanding(h: History, c: Store, e: Store, r: Retry, td: TokenDetails, newId: DeviceId, upTo: Progress)
    requires Inv(System(e, h)) && SignedOut(h, e, r.user, r.d, r.p, r.life)
    requires Claimed(c, e, r.user, r.d, r.p, r.life) && Fresh(h, td) && r.n == td.refresh && r.a == td.access
    ensures var x := Finish(c, r.user, r.p, r.life, td, newId, upTo);
            Standing(x.access, x.refresh, x.rot, x.prev, x.sid, r)
  {
    ClearKeys(h, e, r, td);
    LivesShorter(h, r, td);
    FreshIsAbsent(h, c, e, r.user, r.d, r.p, r.life, td);
    hide Inv, SignedOut, SameSets, SAdd, Ids, Fresh, Finish;
    FinishFields(c, r.user, r.d, r.p, r.life, td, newId, upTo);
    ClearSid(h, e, r, td);
  }

  lemma ClearSid(h: History, e: Store, r: Retry, td: TokenDetails)
    requires Issued(h, e) && Fresh(h, td) && r.n == td.refresh && r.a == td.access
    ensures r.n !in e.sid && r.a !in e.sid
  {
  }

  lemma LivesShorter(h: History, r: Retry, td: TokenDetails)
    requires HistoryOk(h) && r.p in h.born && h.born[r.p].life == r.life && Fresh(h, td)
    ensures r.life <= td.rtExpires
  {
  }

  lemma WiderSets<T(!new)>(index: map<UserId, Index<T>>, other: map<UserId, Index<T>>, user: UserId, own: set<T>,
                           more: set<T>, exp: Time)
    requires SameSets(index, other, user, own)
    ensures SameSets(index, other, user, own + more)
    ensures SameSets(SAdd(index, user, more, exp), other, user, own + more)
  {
    assert Ids(index, user) + (own + more) == Ids(index, user) + own + more;
    assert Ids(other, user) + (own + more) == Ids(other, user) + own + more;
    assert SAdd(index, user, more, exp) - {user} == index - {user};
    assert Ids(SAdd(index, user, more, exp), user) + (own + more) == Ids(index, user) + own + more;
  }

  lemma OwnSets<T(!new)>(index: map<UserId, Index<T>>, other: map<UserId, Index<T>>, own: set<T>, more: set<T>,
                  r: Retry,
                         exp: Time)
    requires SameSets(index, other, r.user, own) && forall u, k | Listed(other, u, k) :: k !in own + more
    requires Lasts(index, r.user, r.life) && Lasts(other, r.user, r.life) && r.life <= exp
    ensures SetsBeside(index, other, own + more, r)
    ensures SetsBeside(SAdd(index, r.user, more, exp), other, own + more, r)
  {
    WiderSets(index, other, r.user, own, more, exp);
    hide SameSets, Listed;
  }

  lemma FinishSets(h: History, c: Store, e: Store, r: Retry, td: TokenDetails, newId: DeviceId, upTo: Progress)
    requires Inv(System(e, h)) && SignedOut(h, e, r.user, r.d, r.p, r.life)
    requires Leaves(c, e, r) && Fresh(h, td) && r.n == td.refresh && r.a == td.access
    ensures var x := Finish(c, r.user, r.p, r.life, td, newId, upTo);
            SetsBeside(x.tokens, e.tokens, r.Own(), r) && SetsBeside(x.devices, e.devices, {r.d}, r)
  {
    assert r.p in h.born && h.born[r.p].life == r.life;
    FreshIsAbsent(h, c, e, r.user, r.d, r.p, r.life, td);
    hide HistoryOk, Issued, PairsOk, PendingOk, OneLivePerLogin, SidsOk, DevicesOk, KeysIndexed, IndexIsKeys,
      DeviceIndexOk, TimesOk, SignedOut, Fresh, Ids, Listed, Claimed, Lasts, SetsBeside, Finish, SAdd;
    ClearSets(h, e, r, td);
    LivesShorter(h, r, td);
    FinishIndexes(c, r, td, newId, upTo);
    FinishedSets(c, e, r, td, Finish(c, r.user, r.p, r.life, td, newId, upTo));
  }

  lemma FinishedSets(c: Store, e: Store, r: Retry, td: TokenDetails, x: Store)
    requires Leaves(c, e, r) && r.life <= td.rtExpires && forall u, k | Listed(e.tokens, u, k) :: k !in r.Own()
    requires x.tokens == c.tokens || x.tokens == SAdd(c.tokens, r.user, {r.a, r.n}, td.rtExpires)
    requires x.devices == c.devices || x.devices == SAdd(c.devices, r.user, {r.d}, td.rtExpires)
    ensures SetsBeside(x.tokens, e.tokens, r.Own(), r) && SetsBeside(x.devices, e.devices, {r.d}, r)
  {
    assert {r.p} + {r.a, r.n} == r.Own() && {r.d} + {r.d} == {r.d};
    hide Ids, Lasts, Listed, SameSets, SetsBeside, SAdd;
    OwnSets(c.tokens, e.tokens, {r.p}, {r.a, r.n}, r, td.rtExpires);
    OwnSets(c.devices, e.devices, {r.d}, {r.d}, r, td.rtExpires);
  }

  lemma FinishIndexes(c: Store, r: Retry, td: TokenDetails, newId: DeviceId, upTo: Progress)
    requires r.n == td.refresh && r.a == td.access && r.p != r.n && r.p in c.sid && c.sid[r.p].device == r.d
    ensures var x := Finish(c, r.user, r.p, r.life, td, newId, upTo);
            && (x.tokens == c.tokens || x.tokens == SAdd(c.tokens, r.user, {r.a, r.n}, td.rtExpires))
            && (x.devices == c.devices || x.devices == SAdd(c.devices, r.user, {r.d}, td.rtExpires))
  {
    FinishFields(c, r.user, r.d, r.p, r.life, td, newId, upTo);
    hide Finish, SAdd;
  }

  lemma FinishListed(h: History, c: Store, e: Store, r: Retry, td: TokenDetails, newId: DeviceId, upTo: Progress)
    requires SignedOut(h, e, r.user, r.d, r.p, r.life)
    requires Claimed(c, e, r.user, r.d, r.p, r.life) && Fresh(h, td) && r.n == td.refresh && r.a == td.access
    ensures var x := Finish(c, r.user, r.p, r.life, td, newId, upTo); PairListed(x.refresh, x.tokens, r)
  {
    FreshIsAbsent(h, c, e, r.user, r.d, r.p, r.life, td);
    hide SignedOut, Fresh, Finish, SameSets;
    FinishFields(c, r.user, r.d, r.p, r.life, td, newId, upTo);
  }

  // A try that claimed the token leaves the store beside the one without the login
  lemma TriedBeside(h: History, x: Store, e: Store, r: Retry, td: TokenDetails, newId: DeviceId, upTo: Progress)
    requires Inv(System(e, h)) && SignedOut(h, e, r.user, r.d, r.p, r.life)
    requires Claimable(x, e, r.user, r.d, r.p, r.life) && Leaves(Retire(x, r.user, r.p).0, e, r)
    requires Fresh(h, td) && r.n == td.refresh && r.a == td.access
    ensures Beside(RotateUpTo(x, r.user, r.p, td, newId, h.now, upTo), e, r)
  {
    var c := Retire(x, r.user, r.p).0;
    StillAhead(h, e, r.user, r.d, r.p, r.life);
    FinishKeys(h, c, e, r, td, newId, upTo);
    FinishLinks(h, c, e, r, td, newId, upTo);
    FinishStanding(h, c, e, r, td, newId, upTo);
    FinishSets(h, c, e, r, td, newId, upTo);
    FinishListed(h, c, e, r, td, newId, upTo);
    hide Inv, SignedOut, Retire, Claimed, Record, CreateAuth, CarrySession, Fresh, TokensBeside, LinksBeside,
      SidsBeside,
      DevicesBeside, SetsBeside, Standing, PairListed;
    assert RotateUpTo(x, r.user, r.p, td, newId, h.now, upTo) == Finish(c, r.user, r.p, r.life, td, newId, upTo);
  }

  // ---- The first try ----

  lemma SRemLasts<T>(index: map<UserId, Index<T>>, v: UserId, ids: set<T>, user: UserId, life: Time)
    requires Lasts(index, user, life)
    ensures Lasts(SRem(index, v, ids), user, life)
  {
  }

  lemma RevokeLasts(s: Store, k: Uuid, user: UserId, life: Time)
    requires Lasts(s.tokens, user, life)
    ensures Lasts(RevokeByRefresh(s, k).tokens, user, life) && RevokeByRefresh(s, k).devices == s.devices
  {
  }

  lemma RetireLasts(s: Store, v: UserId, p: Uuid, user: UserId, life: Time)
    requires Lasts(s.tokens, user, life)
    ensures Lasts(Retire(s, v, p).0.tokens, user, life) && Retire(s, v, p).0.devices == s.devices
  {
    if p !in s.refresh && p in s.rot {
      RevokeLasts(s.(rot := s.rot - {p}, prev := s.prev - {s.rot[p].partner}), s.rot[p].partner, user, life);
      hide RevokeByRefresh;
    }
  }

  lemma SetsLast(h: History, s: Store, p: Uuid)
    requires Inv(System(s, h)) && Usable(s, p)
    ensures Lasts(s.tokens, h.born[p].user, h.born[p].life) && Lasts(s.devices, h.born[p].user, h.born[p].life)
  {
    DeviceOfToken(h, s, p);
    assert HasKey(s, p);
    assert KeyOf(s, p).user == h.born[p].user && KeyOf(s, p).exp == h.born[p].life;
    assert Indexed(s.tokens, KeyOf(s, p).user, p, KeyOf(s, p).exp);
    var d := h.born[p].login;
    assert Indexed(s.devices, s.device[d].user, d, s.device[d].exp);
    assert h.born[p].life <= s.device[d].exp;
  }

  function RetryOf(h: History, p: Uuid, td: TokenDetails): Retry
    requires p in h.born
  {
    Retry(h.born[p].user, h.born[p].login, p, h.born[p].life, td.refresh, td.access)
  }

  lemma SignedOutUnlists(h: History, s: Store, user: UserId, d: DeviceId)
    requires Inv(System(s, h)) && d in s.device && s.device[d].user == user
    ensures forall u :: !Listed(RevokeSession(s, user, d).devices, u, d)
  {
    hide Inv, RevokeSession;
    RevokeSessionEnds(h, s, user, d);
    hide TokensTrimmed, Listed;
  }

  lemma SignedOutLasts(s: Store, user: UserId, d: DeviceId, life: Time)
    requires Lasts(s.tokens, user, life) && Lasts(s.devices, user, life)
    ensures Lasts(RevokeSession(s, user, d).tokens, user, life) && Lasts(RevokeSession(s, user, d).devices, user, life)
  {
    if d in s.device {
      RevokeLasts(s, s.device[d].refresh, user, life);
      SRemLasts(s.devices, user, {d}, user, life);
      hide RevokeByRefresh, SRem;
    }
  }

  lemma FirstTryBeside(h: History, s: Store, p: Uuid, td: TokenDetails, newId: DeviceId, upTo: Progress)
    requires Inv(System(s, h)) && Usable(s, p) && Fresh(h, td)
    ensures var r := RetryOf(h, p, td);
            && Inv(System(RevokeSession(s, r.user, r.d), h))
            && SignedOut(h, RevokeSession(s, r.user, r.d), r.user, r.d, p, r.life)
            && Beside(RotateUpTo(s, r.user, p, td, newId, h.now, upTo), RevokeSession(s, r.user, r.d), r)
  {
    var r := RetryOf(h, p, td);
    hide Inv, SignedOut, RevokeSession, Retire, Claimed, Listed, Usable, Lasts, Fresh, RotateUpTo, Beside;
    SignedOutLeaves(h, s, p);
    UsableIsClaimable(h, s, p);
    SetsLast(h, s, p);
    RetireLasts(s, r.user, p, r.user, r.life);
    SignedOutLasts(s, r.user, r.d, r.life);
    SignedOutUnlists(h, s, r.user, r.d);
    TriedBeside(h, s, RevokeSession(s, r.user, r.d), r, td, newId, upTo);
  }

  // ---- Tries, and what others do in between ----

  // A step that is not about the login of the retry: anyone logs in, other logins refresh and
  // log out, other sessions are revoked, other users revoke all of theirs, anyone's sessions
  // are listed, and time passes, the token presented not expiring. Signing out the others, by
  // another user, is listing and then revoking one by one.
  predicate Elsewhere(step: Step, r: Retry) {
    match step
    case Login(_, td, _) => !r.Owns(td.access) && !r.Owns(td.refresh)
    case Refresh(q, td, _) => !r.Owns(q) && !r.Owns(td.access) && !r.Owns(td.refresh)
    case LogOut(k) => !r.Owns(k)
    case SignOut(_, id) => id != r.d
    case SignOutOthers(_, _) => false
    case RevokeEverything(v) => v != r.user
    case List(_) => true
    case Tick(now) => now < r.life
  }

  // The token presented was issued, and is not past its time
  ghost predicate Pending(h: History, r: Retry) {
    r.p in h.born && h.born[r.p] == Birth(r.user, r.d, r.life) && h.now < r.life
  }

  lemma StepKeepsPending(x: Store, sys: System, r: Retry, step: Step)
    requires Enabled(sys, step) && Pending(sys.h, r) && Elsewhere(step, r)
    ensures Enabled(System(x, sys.h), step)
    ensures Pending(Apply(sys, step).h, r)
  {
    hide CreateSession, Rotate, Rotates, Logout, RevokeSession, RevokeAll, Forget, Purge;
  }

  lemma PendingIsKnown(h: History, r: Retry)
    requires HistoryOk(h) && Pending(h, r)
    ensures r.life <= h.latest && r.d in h.logins
  {
  }

  lemma RefreshBeside(x: Store, sys: System, r: Retry, step: Step)
    requires Inv(sys) && Enabled(sys, step) && Pending(sys.h, r) && Elsewhere(step, r) && step.Refresh?
    requires Beside(x, sys.s, r) && Enabled(System(x, sys.h), step)
    ensures Beside(Apply(System(x, sys.h), step).s, Apply(sys, step).s, r)
    ensures Apply(System(x, sys.h), step).h == Apply(sys, step).h
  {
    PendingIsKnown(sys.h, r);
    hide Inv, Beside, Rotate, Rotates, Issue;
    RotateBeside(x, sys.s, r, sys.h.born[step.token].user, step.token, step.td, step.newId, sys.h.now);
  }

  lemma StepBeside(x: Store, sys: System, r: Retry, step: Step)
    requires Inv(sys) && Enabled(sys, step) && Pending(sys.h, r) && Elsewhere(step, r)
    requires Beside(x, sys.s, r) && Enabled(System(x, sys.h), step)
    ensures Beside(Apply(System(x, sys.h), step).s, Apply(sys, step).s, r)
    ensures Apply(System(x, sys.h), step).h == Apply(sys, step).h
  {
    var System(e, h) := sys;
    PendingIsKnown(h, r);
    hide Inv, Beside, CreateSession, Rotate, Rotates, Logout, RevokeSession, RevokeAll, Forget, Purge, Issue;
    match step
    case Login(v, td, id) => LoginBeside(x, e, r, v, td, id);
    case Refresh(q, td, newId) => RefreshBeside(x, sys, r, step);
    case LogOut(k) => LogoutBeside(x, e, r, k);
    case SignOut(v, id) => RevokeSessionBeside(x, e, r, v, id);
    case RevokeEverything(v) => RevokeAllBeside(x, e, r, v);
    case List(v) => ForgetBeside(x, e, r, v);
    case Tick(now) => PurgeBeside(x, e, r, now);
  }

  lemma LoginBeside(x: Store, e: Store, r: Retry, v: UserId, td: TokenDetails, id: DeviceId)
    requires Beside(x, e, r) && !r.Owns(td.access) && !r.Owns(td.refresh) && id != r.d && r.life <= td.rtExpires
    ensures Beside(CreateSession(x, v, td, id), CreateSession(e, v, td, id), r)
  {
    hide Beside, CreateAuth, WriteSession;
    CreateAuthBeside(x, e, r, v, td);
    WriteSessionBeside(CreateAuth(x, v, td), CreateAuth(e, v, td), r, v, id, td);
  }

  datatype Happening = Tried(attempt: Attempt) | Meanwhile(step: Step)

  // The store, beside the system in which the device was signed out before the first try
  datatype Torn = Torn(x: Store, apart: System, r: Retry)

  ghost predicate Possible(t: Torn, happening: Happening) {
    match happening
    case Tried(attempt) => Fresh(t.apart.h, attempt.td)
    case Meanwhile(step) => Enabled(t.apart, step) && Enabled(System(t.x, t.apart.h), step) && Elsewhere(step, t.r)
  }

  ghost function Then(t: Torn, happening: Happening): Torn
    requires Possible(t, happening)
  {
    match happening
    case Tried(Attempt(td, newId, upTo)) =>
      Torn(RotateUpTo(t.x, t.r.user, t.r.p, td, newId, t.apart.h.now, upTo), t.apart,
           t.r.(n := td.refresh, a := td.access))
    case Meanwhile(step) => Torn(Apply(System(t.x, t.apart.h), step).s, Apply(t.apart, step), t.r)
  }

  ghost predicate AllPossible(t: Torn, happenings: seq<Happening>)
    decreases |happenings|
  {
    happenings != [] ==> Possible(t, happenings[0]) && AllPossible(Then(t, happenings[0]), happenings[1..])
  }

  ghost function After(t: Torn, happenings: seq<Happening>): Torn
    requires AllPossible(t, happenings)
    decreases |happenings|
  {
    if happenings == [] then t else After(Then(t, happenings[0]), happenings[1..])
  }

  ghost predicate Coherent(t: Torn) {
    Inv(t.apart) && Pending(t.apart.h, t.r) && Beside(t.x, t.apart.s, t.r)
  }

  lemma BesideIsSignedOut(h: History, x: Store, e: Store, r: Retry)
    requires Inv(System(e, h)) && Pending(h, r) && Beside(x, e, r)
    ensures SignedOut(h, e, r.user, r.d, r.p, r.life)
    ensures Leaves(Retire(x, r.user, r.p).0, e, r) && Claimable(x, e, r.user, r.d, r.p, r.life)
  {
    hide Inv, SignedOut, Retire, Claimed, Listed, Lasts, TokensBeside, LinksBeside, SidsBeside, DevicesBeside, Standing,
      PairListed;
    BesideIsClaimable(x, e, r);
    BesideKnowsNothing(h, x, e, r);
    BesideUnlists(x, e, r);
  }

  lemma BesideKnowsNothing(h: History, x: Store, e: Store, r: Retry)
    requires Inv(System(e, h)) && Pending(h, r) && Beside(x, e, r)
    ensures SignedOut(h, e, r.user, r.d, r.p, r.life)
  {
    forall k | k in Ids(e.tokens, r.user)
      ensures Known(h, k) && k != r.p
    {
      assert Listed(e.tokens, r.user, k);
    }
    hide HistoryOk, Issued, PairsOk, PendingOk, OneLivePerLogin, SidsOk, DevicesOk, TokenIndexOk, DeviceIndexOk,
      TimesOk,
      Standing, PairListed, SetsBeside, LinksBeside, Ids, Known;
  }

  lemma BesideUnlists(x: Store, e: Store, r: Retry)
    requires Beside(x, e, r)
    ensures (forall u :: !Listed(e.devices, u, r.d)) && Lasts(e.tokens, r.user, r.life)
            && Lasts(e.devices, r.user, r.life)
  {
    hide TokensBeside, LinksBeside, SidsBeside, DevicesBeside, Standing, PairListed, SameSets, Listed;
  }

  lemma ThenCoherent(t: Torn, happening: Happening)
    requires Coherent(t) && Possible(t, happening)
    ensures Coherent(Then(t, happening))
  {
    hide Inv, Beside, RotateUpTo, Apply, Enabled, Leaves, Claimable, SignedOut;
    match happening
    case Tried(Attempt(td, newId, upTo)) =>
      BesideIsSignedOut(t.apart.h, t.x, t.apart.s, t.r);
      TriedAgain(t, td, newId, upTo);
    case Meanwhile(step) =>
      StepKeepsInv(t.apart, step);
      StepKeepsPending(t.x, t.apart, t.r, step);
      StepBeside(t.x, t.apart, t.r, step);
  }

  lemma TriedAgain(t: Torn, td: TokenDetails, newId: DeviceId, upTo: Progress)
    requires Coherent(t) && Fresh(t.apart.h, td)
    ensures Beside(RotateUpTo(t.x, t.r.user, t.r.p, td, newId, t.apart.h.now, upTo), t.apart.s,
                t.r.(n := td.refresh, a := td.access))
  {
    BesideIsSignedOut(t.apart.h, t.x, t.apart.s, t.r);
    hide Inv, Beside, RotateUpTo, Claimed, Retire, SignedOut, Fresh, Lasts, Listed;
    TriedBeside(t.apart.h, t.x, t.apart.s, t.r.(n := td.refresh, a := td.access), td, newId, upTo);
  }

  lemma {:induction false} AfterCoherent(t: Torn, happenings: seq<Happening>)
    requires Coherent(t) && AllPossible(t, happenings)
    ensures Coherent(After(t, happenings))
    decreases |happenings|
  {
    hide Coherent, Possible, Then;
    if happenings != [] {
      ThenCoherent(t, happenings[0]);
      AfterCoherent(Then(t, happenings[0]), happenings[1..]);
    }
  }

  lemma {:induction false} AfterKeepsToken(t: Torn, happenings: seq<Happening>)
    requires AllPossible(t, happenings)
    ensures var r := After(t, happenings).r; r.user == t.r.user && r.d == t.r.d && r.p == t.r.p && r.life == t.r.life
    decreases |happenings|
  {
    hide Possible, Apply, RotateUpTo;
    if happenings != [] {
      AfterKeepsToken(Then(t, happenings[0]), happenings[1..]);
    }
  }

  // A rotation failed, or its answer was lost; it may be tried again any number of times, to
  // fail again or be lost, while others go on and time passes. The first try that completes
  // leads to the store in which the device was signed out before it all, the others did what
  // they did, and the device is signed in again: nothing of the tries is left, and the invariant
  // holds for the pair that was handed out alone. Until then no
  // other token is more or less usable for them.
  lemma RetriesLeaveNoTrace(h: History, s: Store, p: Uuid, first: Attempt, happenings: seq<Happening>,
                                   td: TokenDetails, newId: DeviceId)
    requires Inv(System(s, h)) && Usable(s, p) && Fresh(h, first.td)
    requires var r := RetryOf(h, p, first.td);
             var torn := RotateUpTo(s, r.user, p, first.td, first.newId, h.now, first.upTo);
             var t := Torn(torn, System(RevokeSession(s, r.user, r.d), h), r);
             AllPossible(t, happenings) && Fresh(After(t, happenings).apart.h, td)
    ensures var r := RetryOf(h, p, first.td);
            var torn := RotateUpTo(s, r.user, p, first.td, first.newId, h.now, first.upTo);
            var Torn(x, apart, last) := After(Torn(torn, System(RevokeSession(s, r.user, r.d), h), r), happenings);
            && Rotates(x, r.user, p)
            && Rotate(x, r.user, p, td, newId, apart.h.now) == Reinstalled(apart.s, r.user, r.d, p, r.life, td)
            && Inv(System(Rotate(x, r.user, p, td, newId, apart.h.now), Issue(apart.h, r.user, r.d, td)))
            && (forall q | !last.Owns(q) :: Usable(x, q) <==> Usable(apart.s, q))
  {
    var r := RetryOf(h, p, first.td);
    var torn := RotateUpTo(s, r.user, p, first.td, first.newId, h.now, first.upTo);
    var t := Torn(torn, System(RevokeSession(s, r.user, r.d), h), r);
    hide Inv, SignedOut, Beside, Fresh, Usable, RotateUpTo, RevokeSession, Possible, Then, Rotates, Rotate,
      Reinstalled, Claimable, Leaves, Issue;
    FirstTryBeside(h, s, p, first.td, first.newId, first.upTo);
    StillAhead(h, t.apart.s, r.user, r.d, p, r.life);
    AfterCoherent(t, happenings);
    AfterKeepsToken(t, happenings);
    var Torn(x, apart, last) := After(t, happenings);
    BesideIsSignedOut(apart.h, x, apart.s, last);
    ClaimableReinstalls(apart.h, x, apart.s, r.user, r.d, p, r.life, td, newId);
    CoherentReinstalls(apart.h, x, apart.s, last, td);
    OthersUsable(x, apart.s, last);
  }

  lemma NoSessionIsVacant(h: History, e: Store, d: DeviceId)
    requires Inv(System(e, h)) && d !in e.device
    ensures Vacant(h, e, d)
  {
    forall k | HasKey(e, k)
      ensures Known(h, k) && BirthOf(h, k).login != d
    {
      KeyOwner(h, e, k);
    }
    hide TokenIndexOk, DeviceIndexOk, TimesOk, SidsOk, OneLivePerLogin;
  }

  lemma CoherentReinstalls(h: History, x: Store, e: Store, r: Retry, td: TokenDetails)
    requires Inv(System(e, h)) && Pending(h, r) && Beside(x, e, r) && Fresh(h, td)
    ensures Inv(System(Reinstalled(e, r.user, r.d, r.p, r.life, td), Issue(h, r.user, r.d, td)))
  {
    assert r.d !in e.device && r.d in h.logins && h.logins[r.d] == r.user by {
      hide SetsBeside, TokensBeside, LinksBeside, SidsBeside, Standing, PairListed, PairsOk, PendingOk, SidsOk,
        DevicesOk, TokenIndexOk, DeviceIndexOk, TimesOk;
    }
    hide Inv, Beside, SignedOut, Vacant, Reinstalled, Issue, Leaves, Claimable, Fresh;
    BesideIsSignedOut(h, x, e, r);
    NoSessionIsVacant(h, e, r.d);
    ReinstallKeepsInv(h, e, r.user, r.d, r.p, r.life, td);
  }

  lemma OthersUsable(x: Store, e: Store, r: Retry)
    requires Beside(x, e, r)
    ensures forall q | !r.Owns(q) :: Usable(x, q) <==> Usable(e, q)
  {
    hide SetsBeside, LinksBeside, SidsBeside, DevicesBeside, Standing, PairListed;
  }
}
