/**
 A store with an unfinished rotation in it beside the store without: whatever others do, does
 the same to both.
 */
module UnfinishedRotation {
  import opened SessionStore
  import opened SessionInvariant
  import opened SessionLogin
  import opened SessionRotation

  // ---- A store with an unfinished rotation beside one without ----

  // An unfinished rotation: its user, the device session, the token presented, when that
  // expires, and the refresh and access token that were to be handed out
  datatype Retry = Retry(user: UserId, d: DeviceId, p: Uuid, life: Time, n: Uuid, a: Uuid) {
    function Own(): set<Uuid> {
      {p, n, a}
    }

    predicate Owns(k: Uuid) {
      k == p || k == n || k == a
    }
  }

  ghost predicate SameKeys<V>(m: map<Uuid, V>, other: map<Uuid, V>, r: Retry) {
    forall k | !r.Owns(k) :: (k in m <==> k in other) && (k in m ==> m[k] == other[k])
  }

  // Both maps hold the same keys but for those of the retry, and point to none of them
  ghost predicate TokensBeside(m: map<Uuid, Token>, other: map<Uuid, Token>, r: Retry) {
    SameKeys(m, other, r) && forall k | k in other :: !r.Owns(k) && !r.Owns(other[k].partner)
  }

  ghost predicate LinksBeside(m: map<Uuid, BackLink>, other: map<Uuid, BackLink>, r: Retry) {
    SameKeys(m, other, r) && forall k | k in other :: !r.Owns(k) && !r.Owns(other[k].previous)
  }

  ghost predicate SidsBeside(m: map<Uuid, Sid>, other: map<Uuid, Sid>, r: Retry) {
    SameKeys(m, other, r) && forall k | k in other :: !r.Owns(k) && other[k].device != r.d
  }

  ghost predicate DevicesBeside(m: map<DeviceId, Device>, other: map<DeviceId, Device>, r: Retry) {
    && (forall k | k != r.d :: (k in m <==> k in other) && (k in m ==> m[k] == other[k]))
    && (forall k | k in other :: k != r.d && !r.Owns(other[k].refresh))
  }

  predicate Lasts<T>(index: map<UserId, Index<T>>, user: UserId, life: Time) {
    user in index ==> life <= index[user].exp
  }

  // The sets agree but for own, which the other lists nowhere; those of the user that stand
  // outlive the token presented
  ghost predicate SetsBeside<T(!new)>(index: map<UserId, Index<T>>, other: map<UserId, Index<T>>, own: set<T>,
                                      r: Retry) {
    && SameSets(index, other, r.user, own)
    && (forall u, k | Listed(other, u, k) :: k !in own)
    && Lasts(index, r.user, r.life) && Lasts(other, r.user, r.life)
  }

  // The record of the rotation, and perhaps its pair, with its link
  ghost predicate Standing(access: map<Uuid, Token>, refresh: map<Uuid, Token>, rot: map<Uuid, Token>,
                           prev: map<Uuid, BackLink>, sid: map<Uuid, Sid>, r: Retry) {
    && r.p != r.n && r.n != r.a && r.p != r.a
    && r.p in rot && rot[r.p] == Token(r.user, r.n, r.life) && r.n !in rot && r.a !in rot
    && r.n in prev && prev[r.n] == BackLink(r.p, r.life) && r.p !in prev && r.a !in prev
    && r.p !in refresh && r.a !in refresh
    && (r.n in refresh ==>
          refresh[r.n].user == r.user && refresh[r.n].partner == r.a && r.life <= refresh[r.n].exp)
    && r.p !in access && r.n !in access && (r.a in access ==> r.n in refresh)
    && r.p in sid && sid[r.p] == Sid(r.d, r.life) && r.a !in sid && (r.n in sid ==> r.n in refresh)
  }

  ghost predicate PairListed(refresh: map<Uuid, Token>, tokens: map<UserId, Index<Uuid>>, r: Retry) {
    && r.p in Ids(tokens, r.user)
    && (r.n in Ids(tokens, r.user) || r.a in Ids(tokens, r.user) ==> r.n in refresh)
  }

  // x is e with the unfinished rotation in it
  ghost predicate Beside(x: Store, e: Store, r: Retry) {
    && TokensBeside(x.access, e.access, r)
    && TokensBeside(x.refresh, e.refresh, r)
    && TokensBeside(x.rot, e.rot, r)
    && LinksBeside(x.prev, e.prev, r)
    && SidsBeside(x.sid, e.sid, r)
    && DevicesBeside(x.device, e.device, r)
    && SetsBeside(x.tokens, e.tokens, r.Own(), r)
    && SetsBeside(x.devices, e.devices, {r.d}, r)
    && Standing(x.access, x.refresh, x.rot, x.prev, x.sid, r)
    && PairListed(x.refresh, x.tokens, r)
  }

  // ---- Writing and removing other keys ----

  lemma SAddAlike<T(!new)>(index: map<UserId, Index<T>>, other: map<UserId, Index<T>>, user: UserId, own: set<T>,
                           v: UserId, ids: set<T>, exp: Time)
    requires SameSets(index, other, user, own)
    ensures SameSets(SAdd(index, v, ids, exp), SAdd(other, v, ids, exp), user, own)
  {
    assert forall u | u != user :: (u in index <==> u in index - {user}) && (u in other <==> u in other - {user});
    if v == user {
      assert Ids(index, v) + ids + own == Ids(index, v) + own + ids;
      assert Ids(other, v) + ids + own == Ids(other, v) + own + ids;
    }
  }

  lemma SRemAlike<T(!new)>(index: map<UserId, Index<T>>, other: map<UserId, Index<T>>, user: UserId, own: set<T>,
                           v: UserId, ids: set<T>)
    requires SameSets(index, other, user, own)
    ensures SameSets(SRem(index, v, ids), SRem(other, v, ids), user, own)
  {
    assert forall u | u != user :: (u in index <==> u in index - {user}) && (u in other <==> u in other - {user});
    if v == user {
      assert Ids(index, v) - ids + own == (Ids(index, v) + own - ids) + own;
      assert Ids(other, v) - ids + own == (Ids(other, v) + own - ids) + own;
    }
  }

  lemma SRemLists<T(!new)>(index: map<UserId, Index<T>>, v: UserId, ids: set<T>)
    ensures forall u, k :: Listed(SRem(index, v, ids), u, k) <==> Listed(index, u, k) && !(u == v && k in ids)
  {
    var rest := Ids(index, v) - ids;
    assert forall k :: Listed(index, v, k) && k !in ids <==> k in rest;
  }

  // ---- Single calls about other keys ----

  predicate Others(r: Retry, keys: set<Uuid>) {
    forall k | k in keys :: !r.Owns(k)
  }

  lemma SAddBeside<T(!new)>(index: map<UserId, Index<T>>, other: map<UserId, Index<T>>, own: set<T>, r: Retry,
                            v: UserId, ids: set<T>, exp: Time)
    requires SetsBeside(index, other, own, r) && ids !! own && r.life <= exp
    ensures SetsBeside(SAdd(index, v, ids, exp), SAdd(other, v, ids, exp), own, r)
  {
    SAddAlike(index, other, r.user, own, v, ids, exp);
    SAddLists(other, v, ids, exp);
    hide SameSets, Listed;
  }

  lemma SRemBeside<T(!new)>(index: map<UserId, Index<T>>, other: map<UserId, Index<T>>, own: set<T>, r: Retry,
                            v: UserId, ids: set<T>)
    requires SetsBeside(index, other, own, r)
    ensures SetsBeside(SRem(index, v, ids), SRem(other, v, ids), own, r)
  {
    SRemAlike(index, other, r.user, own, v, ids);
    SRemLists(other, v, ids);
    hide SameSets, Listed;
  }

  lemma CutTokens(m: map<Uuid, Token>, other: map<Uuid, Token>, r: Retry, keys: set<Uuid>)
    requires TokensBeside(m, other, r)
    ensures TokensBeside(m - keys, other - keys, r)
  {
  }

  lemma CutLinks(m: map<Uuid, BackLink>, other: map<Uuid, BackLink>, r: Retry, keys: set<Uuid>)
    requires LinksBeside(m, other, r)
    ensures LinksBeside(m - keys, other - keys, r)
  {
  }

  lemma CutSids(m: map<Uuid, Sid>, other: map<Uuid, Sid>, r: Retry, keys: set<Uuid>)
    requires SidsBeside(m, other, r)
    ensures SidsBeside(m - keys, other - keys, r)
  {
  }

  lemma CutDevices(m: map<DeviceId, Device>, other: map<DeviceId, Device>, r: Retry, keys: set<DeviceId>)
    requires DevicesBeside(m, other, r)
    ensures DevicesBeside(m - keys, other - keys, r)
  {
  }

  // Tokens, links and listed uuids of others taken out
  function Cut(s: Store, access: set<Uuid>, refresh: set<Uuid>, rot: set<Uuid>, prev: set<Uuid>, sid: set<Uuid>,
               v: UserId, listed: set<Uuid>): Store {
    s.(access := s.access - access, refresh := s.refresh - refresh, rot := s.rot - rot, prev := s.prev - prev,
       sid := s.sid - sid, tokens := SRem(s.tokens, v, listed))
  }

  lemma CutStanding(x: Store, r: Retry, access: set<Uuid>, refresh: set<Uuid>, rot: set<Uuid>, prev: set<Uuid>,
                    sid: set<Uuid>, v: UserId, listed: set<Uuid>)
    requires Standing(x.access, x.refresh, x.rot, x.prev, x.sid, r) && PairListed(x.refresh, x.tokens, r)
    requires Others(r, access) && Others(r, refresh) && Others(r, rot) && Others(r, prev) && Others(r, sid)
             && Others(r, listed)
    ensures var y := Cut(x, access, refresh, rot, prev, sid, v, listed);
            Standing(y.access, y.refresh, y.rot, y.prev, y.sid, r) && PairListed(y.refresh, y.tokens, r)
  {
  }

  lemma CutBeside(x: Store, e: Store, r: Retry, access: set<Uuid>, refresh: set<Uuid>, rot: set<Uuid>, prev: set<Uuid>,
                  sid: set<Uuid>, v: UserId, listed: set<Uuid>)
    requires Beside(x, e, r)
    requires Others(r, access) && Others(r, refresh) && Others(r, rot) && Others(r, prev) && Others(r, sid)
             && Others(r, listed)
    ensures Beside(Cut(x, access, refresh, rot, prev, sid, v, listed),
                Cut(e, access, refresh, rot, prev, sid, v, listed), r)
  {
    CutTokens(x.access, e.access, r, access);
    CutTokens(x.refresh, e.refresh, r, refresh);
    CutTokens(x.rot, e.rot, r, rot);
    CutLinks(x.prev, e.prev, r, prev);
    CutSids(x.sid, e.sid, r, sid);
    SRemBeside(x.tokens, e.tokens, r.Own(), r, v, listed);
    CutStanding(x, r, access, refresh, rot, prev, sid, v, listed);
    hide SetsBeside, TokensBeside, LinksBeside, SidsBeside, DevicesBeside, Standing, PairListed, Others;
  }

  lemma EndSessionBeside(x: Store, e: Store, r: Retry, v: UserId, id: DeviceId)
    requires Beside(x, e, r) && id != r.d
    ensures Beside(EndSession(x, v, id), EndSession(e, v, id), r)
  {
    CutDevices(x.device, e.device, r, {id});
    SRemBeside(x.devices, e.devices, {r.d}, r, v, {id});
    hide SetsBeside, TokensBeside, LinksBeside, SidsBeside, DevicesBeside, SRem, Standing, PairListed;
  }

  lemma DropPredecessorIsCut(s: Store, v: UserId, k: Uuid)
    requires k in s.prev
    ensures var q := s.prev[k].previous; DropPredecessor(s, v, k) == Cut(s, {}, {}, {q}, {k}, {q}, v, {q})
  {
    assert s.access - {} == s.access && s.refresh - {} == s.refresh;
  }

  lemma DropPredecessorBeside(x: Store, e: Store, r: Retry, v: UserId, k: Uuid)
    requires Beside(x, e, r) && !r.Owns(k)
    ensures Beside(DropPredecessor(x, v, k), DropPredecessor(e, v, k), r)
  {
    assert LinksBeside(x.prev, e.prev, r);
    hide Beside, Cut;
    if k in e.prev {
      DropPredecessorIsCut(x, v, k);
      DropPredecessorIsCut(e, v, k);
      hide DropPredecessor;
      var q := e.prev[k].previous;
      CutBeside(x, e, r, {}, {}, {q}, {k}, {q}, v, {q});
    }
  }

  // A pair without its keys
  function Unstored(s: Store, user: UserId, refresh: Uuid, access: Uuid): Store {
    s.(refresh := s.refresh - {refresh}, access := s.access - {access}, sid := s.sid - {refresh},
       tokens := SRem(s.tokens, user, {refresh, access}))
  }

  lemma UnstoredBeside(x: Store, e: Store, r: Retry, v: UserId, refresh: Uuid, access: Uuid)
    requires Beside(x, e, r) && !r.Owns(refresh) && !r.Owns(access)
    ensures Beside(Unstored(x, v, refresh, access), Unstored(e, v, refresh, access), r)
  {
    hide Beside;
    CutBeside(x, e, r, {access}, {refresh}, {}, {}, {refresh}, v, {refresh, access});
    assert forall s: Store :: s.rot - {} == s.rot && s.prev - {} == s.prev;
  }

  lemma RevokeByRefreshBeside(x: Store, e: Store, r: Retry, k: Uuid)
    requires Beside(x, e, r) && !r.Owns(k)
    ensures Beside(RevokeByRefresh(x, k), RevokeByRefresh(e, k), r)
  {
    assert TokensBeside(x.refresh, e.refresh, r);
    hide Beside, DropPredecessor, SRem;
    if k in e.refresh {
      var Token(v, access, _) := e.refresh[k];
      UnstoredBeside(x, e, r, v, k, access);
      DropPredecessorBeside(Unstored(x, v, k, access), Unstored(e, v, k, access), r, v, k);
    }
  }

  lemma RevokeByAccessBeside(x: Store, e: Store, r: Retry, k: Uuid)
    requires Beside(x, e, r) && !r.Owns(k)
    ensures Beside(RevokeByAccess(x, k), RevokeByAccess(e, k), r)
  {
    assert TokensBeside(x.access, e.access, r);
    hide Beside, DropPredecessor, SRem;
    if k in e.access {
      var Token(v, refresh, _) := e.access[k];
      assert {k, refresh} == {refresh, k};
      UnstoredBeside(x, e, r, v, refresh, k);
      DropPredecessorBeside(Unstored(x, v, refresh, k), Unstored(e, v, refresh, k), r, v, refresh);
    }
  }

  lemma RevokeSessionBeside(x: Store, e: Store, r: Retry, v: UserId, id: DeviceId)
    requires Beside(x, e, r) && id != r.d
    ensures Beside(RevokeSession(x, v, id), RevokeSession(e, v, id), r)
  {
    assert DevicesBeside(x.device, e.device, r);
    hide Beside, RevokeByRefresh, EndSession;
    if id in e.device && e.device[id].user == v {
      var k := e.device[id].refresh;
      RevokeByRefreshBeside(x, e, r, k);
      EndSessionBeside(RevokeByRefresh(x, k), RevokeByRefresh(e, k), r, v, id);
    }
  }

  lemma LogoutBeside(x: Store, e: Store, r: Retry, k: Uuid)
    requires Beside(x, e, r) && !r.Owns(k)
    ensures Beside(Logout(x, k), Logout(e, k), r)
  {
    assert TokensBeside(x.access, e.access, r) && SidsBeside(x.sid, e.sid, r);
    hide Beside, RevokeByAccess, EndSession;
    RevokeByAccessBeside(x, e, r, k);
    if SessionOfAccess(e, k).Some? {
      EndSessionBeside(RevokeByAccess(x, k), RevokeByAccess(e, k), r, e.access[k].user, SessionOfAccess(e, k).value);
    }
  }

  // ---- A login, and a rotation of another token ----

  lemma PutToken(m: map<Uuid, Token>, other: map<Uuid, Token>, r: Retry, k: Uuid, token: Token)
    requires TokensBeside(m, other, r) && !r.Owns(k) && !r.Owns(token.partner)
    ensures TokensBeside(m[k := token], other[k := token], r)
  {
  }

  lemma PutLink(m: map<Uuid, BackLink>, other: map<Uuid, BackLink>, r: Retry, k: Uuid, link: BackLink)
    requires LinksBeside(m, other, r) && !r.Owns(k) && !r.Owns(link.previous)
    ensures LinksBeside(m[k := link], other[k := link], r)
  {
  }

  lemma PutSid(m: map<Uuid, Sid>, other: map<Uuid, Sid>, r: Retry, k: Uuid, sid: Sid)
    requires SidsBeside(m, other, r) && !r.Owns(k) && sid.device != r.d
    ensures SidsBeside(m[k := sid], other[k := sid], r)
  {
  }

  lemma PutDevice(m: map<DeviceId, Device>, other: map<DeviceId, Device>, r: Retry, k: DeviceId, device: Device)
    requires DevicesBeside(m, other, r) && k != r.d && !r.Owns(device.refresh)
    ensures DevicesBeside(m[k := device], other[k := device], r)
  {
  }

  lemma CreateAuthStanding(x: Store, r: Retry, v: UserId, td: TokenDetails)
    requires Standing(x.access, x.refresh, x.rot, x.prev, x.sid, r) && PairListed(x.refresh, x.tokens, r)
    requires !r.Owns(td.access) && !r.Owns(td.refresh)
    ensures var y := CreateAuth(x, v, td);
            Standing(y.access, y.refresh, y.rot, y.prev, y.sid, r) && PairListed(y.refresh, y.tokens, r)
  {
  }

  lemma CreateAuthBeside(x: Store, e: Store, r: Retry, v: UserId, td: TokenDetails)
    requires Beside(x, e, r) && !r.Owns(td.access) && !r.Owns(td.refresh) && r.life <= td.rtExpires
    ensures Beside(CreateAuth(x, v, td), CreateAuth(e, v, td), r)
  {
    PutToken(x.access, e.access, r, td.access, Token(v, td.refresh, td.atExpires));
    PutToken(x.refresh, e.refresh, r, td.refresh, Token(v, td.access, td.rtExpires));
    SAddBeside(x.tokens, e.tokens, r.Own(), r, v, {td.access, td.refresh}, td.rtExpires);
    CreateAuthStanding(x, r, v, td);
    hide SetsBeside, TokensBeside, LinksBeside, SidsBeside, DevicesBeside, Standing, PairListed, SAdd;
  }

  lemma WriteSessionBeside(x: Store, e: Store, r: Retry, v: UserId, id: DeviceId, td: TokenDetails)
    requires Beside(x, e, r) && !r.Owns(td.refresh) && id != r.d && r.life <= td.rtExpires
    ensures Beside(WriteSession(x, v, id, td), WriteSession(e, v, id, td), r)
  {
    PutSid(x.sid, e.sid, r, td.refresh, Sid(id, td.rtExpires));
    PutDevice(x.device, e.device, r, id, Device(v, td.refresh, td.rtExpires));
    SAddBeside(x.devices, e.devices, {r.d}, r, v, {id}, td.rtExpires);
    hide SetsBeside, TokensBeside, LinksBeside, SidsBeside, DevicesBeside, SAdd, PairListed;
  }

  lemma RecordBeside(x: Store, e: Store, r: Retry, v: UserId, q: Uuid, td: TokenDetails, exp: Time)
    requires Beside(x, e, r) && !r.Owns(q) && !r.Owns(td.refresh)
    ensures Beside(Record(x, v, q, td, exp), Record(e, v, q, td, exp), r)
  {
    PutToken(x.rot, e.rot, r, q, Token(v, td.refresh, exp));
    PutLink(x.prev, e.prev, r, td.refresh, BackLink(q, exp));
    hide SetsBeside, TokensBeside, LinksBeside, SidsBeside, DevicesBeside;
  }

  // A token taken out of the live ones, with its partner, as a rotation claims it
  lemma ClaimLiveBeside(x: Store, e: Store, r: Retry, v: UserId, q: Uuid, access: Uuid)
    requires Beside(x, e, r) && !r.Owns(q) && !r.Owns(access)
    ensures Beside(
                x.(refresh := x.refresh - {q}, access := x.access - {access}, tokens := SRem(x.tokens, v, {access})),
                e.(refresh := e.refresh - {q}, access := e.access - {access}, tokens := SRem(e.tokens, v, {access})),
                r)
  {
    hide Beside;
    CutBeside(x, e, r, {access}, {q}, {}, {}, {}, v, {access});
    assert forall s: Store :: s.rot - {} == s.rot && s.prev - {} == s.prev && s.sid - {} == s.sid;
  }

  lemma ClaimPendingBeside(x: Store, e: Store, r: Retry, q: Uuid)
    requires Beside(x, e, r) && !r.Owns(q)
    ensures Beside(x.(rot := x.rot - {q}), e.(rot := e.rot - {q}), r)
  {
    CutTokens(x.rot, e.rot, r, {q});
    hide SetsBeside, TokensBeside, LinksBeside, SidsBeside, DevicesBeside, PairListed;
  }

  lemma UnlinkBeside(x: Store, e: Store, r: Retry, k: Uuid)
    requires Beside(x, e, r) && !r.Owns(k)
    ensures Beside(x.(prev := x.prev - {k}), e.(prev := e.prev - {k}), r)
  {
    CutLinks(x.prev, e.prev, r, {k});
    hide SetsBeside, TokensBeside, LinksBeside, SidsBeside, DevicesBeside, PairListed;
  }

  lemma RetireBeside(x: Store, e: Store, r: Retry, v: UserId, q: Uuid)
    requires Beside(x, e, r) && !r.Owns(q)
    ensures Retire(x, v, q).1 == Retire(e, v, q).1
    ensures Beside(Retire(x, v, q).0, Retire(e, v, q).0, r)
  {
    assert TokensBeside(x.refresh, e.refresh, r) && TokensBeside(x.rot, e.rot, r);
    hide Beside, DropPredecessor, RevokeByRefresh, SRem;
    if q in e.refresh {
      if e.refresh[q].user == v {
        var access := e.refresh[q].partner;
        ClaimLiveBeside(x, e, r, v, q, access);
        DropPredecessorBeside(
            x.(refresh := x.refresh - {q}, access := x.access - {access}, tokens := SRem(x.tokens, v, {access})),
            e.(refresh := e.refresh - {q}, access := e.access - {access}, tokens := SRem(e.tokens, v, {access})),
            r, v, q);
      }
    } else if q in e.rot {
      ClaimPendingBeside(x, e, r, q);
      if e.rot[q].user == v {
        var c, f, k := x.(rot := x.rot - {q}), e.(rot := e.rot - {q}), e.rot[q].partner;
        UnlinkBeside(c, f, r, k);
        RevokeByRefreshBeside(c.(prev := c.prev - {k}), f.(prev := f.prev - {k}), r, k);
      }
    }
  }

  lemma CarrySessionBeside(x: Store, e: Store, r: Retry, v: UserId, q: Uuid, td: TokenDetails, newId: DeviceId)
    requires Beside(x, e, r) && !r.Owns(q) && !r.Owns(td.refresh) && newId != r.d && r.life <= td.rtExpires
    ensures Beside(CarrySession(x, v, q, td, newId), CarrySession(e, v, q, td, newId), r)
  {
    assert SidsBeside(x.sid, e.sid, r);
    hide Beside, WriteSession;
    WriteSessionBeside(x, e, r, v, if q in e.sid then e.sid[q].device else newId, td);
  }

  lemma RotateBeside(x: Store, e: Store, r: Retry, v: UserId, q: Uuid, td: TokenDetails, newId: DeviceId, now: Time)
    requires Beside(x, e, r) && !r.Owns(q) && !r.Owns(td.access) && !r.Owns(td.refresh) && newId != r.d
             && r.life <= td.rtExpires
    ensures Rotates(x, v, q) == Rotates(e, v, q)
    ensures Beside(Rotate(x, v, q, td, newId, now), Rotate(e, v, q, td, newId, now), r)
  {
    hide Beside, Retire, Record, CreateAuth, CarrySession;
    RetireBeside(x, e, r, v, q);
    var (c, life) := Retire(x, v, q);
    var f := Retire(e, v, q).0;
    if life.Some? {
      var exp := if life.value <= now then td.rtExpires else life.value;
      RecordBeside(c, f, r, v, q, td, exp);
      CreateAuthBeside(Record(c, v, q, td, exp), Record(f, v, q, td, exp), r, v, td);
      CarrySessionBeside(CreateAuth(Record(c, v, q, td, exp), v, td), CreateAuth(Record(f, v, q, td, exp), v, td), r,
          v, q, td, newId);
    }
  }

  // ---- Revoking another user's everything, listing, and the passing of time ----

  lemma DropUserBeside<T(!new)>(index: map<UserId, Index<T>>, other: map<UserId, Index<T>>, own: set<T>, r: Retry,
                                v: UserId)
    requires SetsBeside(index, other, own, r) && v != r.user
    ensures SetsBeside(index - {v}, other - {v}, own, r)
    ensures Ids(index, v) == Ids(other, v) && Ids(other, v) !! own
  {
    assert forall u | u != r.user :: (u in index <==> u in index - {r.user}) && (u in other <==> u in other - {r.user});
    assert forall k :: k in Ids(other, v) <==> Listed(other, v, k);
    assert Ids(index - {v}, r.user) == Ids(index, r.user) && Ids(other - {v}, r.user) == Ids(other, r.user);
    assert forall u, k :: Listed(other - {v}, u, k) ==> Listed(other, u, k);
  }

  lemma SRemUpToBeside<T(!new)>(index: map<UserId, Index<T>>, other: map<UserId, Index<T>>, own: set<T>, r: Retry,
                                v: UserId, ids: set<T>, others: set<T>)
    requires SetsBeside(index, other, own, r) && if v == r.user then ids + own == others + own else ids == others
    ensures SetsBeside(SRem(index, v, ids), SRem(other, v, others), own, r)
  {
    if v != r.user {
      SRemBeside(index, other, own, r, v, ids);
    } else {
      SRemLists(other, v, others);
      assert Ids(index, v) - ids + own == (Ids(index, v) + own - (ids + own)) + own;
      assert Ids(other, v) - others + own == (Ids(other, v) + own - (others + own)) + own;
      SRemIds(index, v, ids);
      SRemIds(other, v, others);
      hide Listed;
    }
  }

  function EndSessions(s: Store, v: UserId, ids: set<DeviceId>): Store {
    s.(device := s.device - ids, devices := SRem(s.devices, v, ids))
  }

  lemma CutDevicesUpTo(m: map<DeviceId, Device>, other: map<DeviceId, Device>, r: Retry, ids: set<DeviceId>,
                       others: set<DeviceId>)
    requires DevicesBeside(m, other, r) && ids + {r.d} == others + {r.d}
    ensures DevicesBeside(m - ids, other - others, r)
  {
    assert forall k | k != r.d :: k in ids <==> k in ids + {r.d};
    assert forall k | k != r.d :: k in others <==> k in others + {r.d};
  }

  lemma EndSessionsBeside(x: Store, e: Store, r: Retry, v: UserId, ids: set<DeviceId>, others: set<DeviceId>)
    requires Beside(x, e, r)
    requires if v == r.user then ids + {r.d} == others + {r.d} else ids == others
    ensures Beside(EndSessions(x, v, ids), EndSessions(e, v, others), r)
  {
    SRemUpToBeside(x.devices, e.devices, {r.d}, r, v, ids, others);
    CutDevicesUpTo(x.device, e.device, r, ids, others);
    hide SetsBeside, TokensBeside, LinksBeside, SidsBeside, DevicesBeside, SRem, Standing, PairListed;
  }

  lemma RevokeAllBeside(x: Store, e: Store, r: Retry, v: UserId)
    requires Beside(x, e, r) && v != r.user
    ensures Beside(RevokeAll(x, v), RevokeAll(e, v), r)
  {
    DropUserBeside(x.tokens, e.tokens, r.Own(), r, v);
    DropUserBeside(x.devices, e.devices, {r.d}, r, v);
    var uuids, ids := Ids(e.tokens, v), Ids(e.devices, v);
    assert forall k | k in uuids :: k !in r.Own();
    hide Beside, Cut, EndSessions;
    CutBeside(x, e, r, uuids, uuids, uuids, uuids, uuids, v, uuids);
    var cx, ce := Cut(x, uuids, uuids, uuids, uuids, uuids, v, uuids),
        Cut(e, uuids, uuids, uuids, uuids, uuids, v, uuids);
    EndSessionsBeside(cx, ce, r, v, ids, ids);
    RevokeAllIsCut(x, v);
    RevokeAllIsCut(e, v);
  }

  lemma RevokeAllIsCut(s: Store, v: UserId)
    ensures var uuids := Ids(s.tokens, v);
            RevokeAll(s, v) == EndSessions(Cut(s, uuids, uuids, uuids, uuids, uuids, v, uuids), v, Ids(s.devices, v))
  {
  }

  lemma AliveBeside(x: Store, e: Store, r: Retry, v: UserId, id: DeviceId)
    requires Beside(x, e, r) && id != r.d
    ensures DeviceAlive(x, v, id) <==> DeviceAlive(e, v, id)
  {
    hide SetsBeside, LinksBeside, SidsBeside, Standing, PairListed;
  }

  lemma ForgetBeside(x: Store, e: Store, r: Retry, v: UserId)
    requires Beside(x, e, r)
    ensures Beside(Forget(x, v), Forget(e, v), r)
  {
    if v != r.user {
      DropUserBeside(x.devices, e.devices, {r.d}, r, v);
    }
    assert Ids(x.devices, r.user) + {r.d} == Ids(e.devices, r.user) + {r.d};
    hide Beside, SetsBeside, DeviceAlive, Ids, EndSessions;
    var ids, others := Ids(x.devices, v) - LiveDevices(x, v), Ids(e.devices, v) - LiveDevices(e, v);
    forall id | id != r.d
      ensures id in ids <==> id in others
    {
      AliveBeside(x, e, r, v, id);
      assert id in Ids(x.devices, v) <==> id in Ids(x.devices, v) + {r.d};
      assert id in Ids(e.devices, v) <==> id in Ids(e.devices, v) + {r.d};
    }
    assert ids + {r.d} == others + {r.d};
    EndSessionsBeside(x, e, r, v, ids, others);
    ForgetEnds(x, v);
    ForgetEnds(e, v);
  }

  lemma ForgetEnds(s: Store, v: UserId)
    ensures Forget(s, v) == EndSessions(s, v, Ids(s.devices, v) - LiveDevices(s, v))
  {
  }

  function Unexpired<T>(index: map<UserId, Index<T>>, now: Time): map<UserId, Index<T>> {
    map u | u in index && now < index[u].exp :: index[u]
  }

  lemma PurgeSets<T(!new)>(index: map<UserId, Index<T>>, other: map<UserId, Index<T>>, own: set<T>, r: Retry, now: Time)
    requires SetsBeside(index, other, own, r) && now < r.life
    ensures SetsBeside(Unexpired(index, now), Unexpired(other, now), own, r)
  {
    var after, otherAfter := Unexpired(index, now), Unexpired(other, now);
    assert forall u | u != r.user :: (u in index <==> u in index - {r.user}) && (u in other <==> u in other - {r.user});
    assert Ids(after, r.user) == Ids(index, r.user) && Ids(otherAfter, r.user) == Ids(other, r.user);
    assert after - {r.user} == otherAfter - {r.user};
    assert forall u, k :: Listed(otherAfter, u, k) ==> Listed(other, u, k);
  }

  lemma PurgeBeside(x: Store, e: Store, r: Retry, now: Time)
    requires Beside(x, e, r) && now < r.life
    ensures Beside(Purge(x, now), Purge(e, now), r)
  {
    PurgeSets(x.tokens, e.tokens, r.Own(), r, now);
    PurgeSets(x.devices, e.devices, {r.d}, r, now);
    PurgedSets(x, now);
    PurgedSets(e, now);
    PurgeTokens(x, e, r, now);
    PurgeLinks(x, e, r, now);
    PurgeStanding(x, r, now);
    hide SetsBeside, TokensBeside, LinksBeside, SidsBeside, DevicesBeside, Standing, PairListed, Purge, Unexpired;
  }

  lemma PurgedSets(s: Store, now: Time)
    ensures Purge(s, now).tokens == Unexpired(s.tokens, now) && Purge(s, now).devices == Unexpired(s.devices, now)
  {
  }

  predicate IsUnexpired(after: map<Uuid, Token>, m: map<Uuid, Token>, now: Time) {
    && (forall k | k in after :: k in m && now < m[k].exp && after[k] == m[k])
    && (forall k | k in m && now < m[k].exp :: k in after)
  }

  lemma PurgeToken(m: map<Uuid, Token>, other: map<Uuid, Token>, r: Retry, now: Time, after: map<Uuid, Token>,
                   otherAfter: map<Uuid, Token>)
    requires TokensBeside(m, other, r) && IsUnexpired(after, m, now) && IsUnexpired(otherAfter, other, now)
    ensures TokensBeside(after, otherAfter, r)
  {
  }

  lemma PurgedTokens(s: Store, now: Time)
    ensures var t := Purge(s, now);
            IsUnexpired(t.access, s.access, now) && IsUnexpired(t.refresh, s.refresh, now)
            && IsUnexpired(t.rot, s.rot, now)
  {
  }

  lemma PurgeTokens(x: Store, e: Store, r: Retry, now: Time)
    requires TokensBeside(x.access, e.access, r) && TokensBeside(x.refresh, e.refresh, r)
             && TokensBeside(x.rot, e.rot, r)
    ensures var y, f := Purge(x, now), Purge(e, now);
            TokensBeside(y.access, f.access, r) && TokensBeside(y.refresh, f.refresh, r)
            && TokensBeside(y.rot, f.rot, r)
  {
    hide TokensBeside, IsUnexpired, Purge;
    PurgedTokens(x, now);
    PurgedTokens(e, now);
    var y, f := Purge(x, now), Purge(e, now);
    PurgeToken(x.access, e.access, r, now, y.access, f.access);
    PurgeToken(x.refresh, e.refresh, r, now, y.refresh, f.refresh);
    PurgeToken(x.rot, e.rot, r, now, y.rot, f.rot);
  }

  lemma PurgeLinks(x: Store, e: Store, r: Retry, now: Time)
    requires LinksBeside(x.prev, e.prev, r) && SidsBeside(x.sid, e.sid, r) && DevicesBeside(x.device, e.device, r)
    ensures var y, f := Purge(x, now), Purge(e, now);
            LinksBeside(y.prev, f.prev, r) && SidsBeside(y.sid, f.sid, r) && DevicesBeside(y.device, f.device, r)
  {
  }

  lemma PurgeStanding(x: Store, r: Retry, now: Time)
    requires Standing(x.access, x.refresh, x.rot, x.prev, x.sid, r) && PairListed(x.refresh, x.tokens, r)
    requires now < r.life && (r.user in x.tokens ==> r.life <= x.tokens[r.user].exp)
    ensures var y := Purge(x, now);
            Standing(y.access, y.refresh, y.rot, y.prev, y.sid, r) && PairListed(y.refresh, y.tokens, r)
  {
  }
}
