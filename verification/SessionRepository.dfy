/**
 The repository calls over Redis, command by command, and the service calls that drive
 them. Each is proved to have the effect its function in SessionStore describes.
 */
module SessionRepository {
  import opened Collections
  import opened Options
  import opened SessionStore
  import opened SessionInvariant
  import opened SessionRevocation
  import opened SessionLogin
  import opened SessionRuns
  import opened SessionTheorems

  // A login hands out its pair and opens its device session, and touches no other token
  ghost predicate SignedIn(h: History, s: Store, t: Store, user: UserId, td: TokenDetails, d: DeviceId) {
    && Inv(System(t, Issue(h, user, d, td)))
    && (forall x :: Usable(t, x) <==> x == td.refresh || Usable(s, x))
    && d in t.device && t.device[d].refresh == td.refresh && SessionOfAccess(t, td.access) == Some(d)
  }

  lemma LoginAdds(s: Store, user: UserId, td: TokenDetails, d: DeviceId)
    ensures var t := CreateSession(s, user, td, d);
            && (forall x :: Usable(t, x) <==> x == td.refresh || Usable(s, x))
            && d in t.device && t.device[d].refresh == td.refresh && SessionOfAccess(t, td.access) == Some(d)
  {
    hide SAdd;
  }

  lemma LoginSignsIn(h: History, s: Store, user: UserId, td: TokenDetails, d: DeviceId)
    requires Inv(System(s, h)) && Fresh(h, td) && d !in h.logins
    ensures SignedIn(h, s, CreateSession(s, user, td, d), user, td, d)
  {
    hide Inv, CreateSession, Usable, SessionOfAccess, Issue, Fresh;
    LoginStepKeepsInv(System(s, h), user, td, d);
    LoginAdds(s, user, td, d);
  }

  // After a rotation the bearer can use the new token, and the one presented to replay; the
  // device session of the login goes on under the new token, and no other login notices
  ghost predicate Swapped(h: History, s: Store, t: Store, presented: Uuid, td: TokenDetails)
    requires presented in h.born
  {
    var Birth(user, d, _) := h.born[presented];
    && Inv(System(t, Issue(h, user, d, td)))
    && (forall x :: Usable(t, x) <==>
          x == td.refresh || x == presented || (Usable(s, x) && x in h.born && h.born[x].login != d))
    && d in t.device && t.device[d].refresh == td.refresh && SessionOfAccess(t, td.access) == Some(d)
  }

  lemma RotationUsable(h: History, s: Store, presented: Uuid, td: TokenDetails, newId: DeviceId)
    requires Inv(System(s, h)) && Usable(s, presented) && Fresh(h, td)
    ensures var t := Rotate(s, h.born[presented].user, presented, td, newId, h.now);
            forall x :: Usable(t, x) <==>
              x == td.refresh || x == presented
              || (Usable(s, x) && x in h.born && h.born[x].login != h.born[presented].login)
  {
    forall x
      ensures Usable(Rotate(s, h.born[presented].user, presented, td, newId, h.now), x) <==>
              x == td.refresh || x == presented
              || (Usable(s, x) && x in h.born && h.born[x].login != h.born[presented].login)
    {
      RefreshUsable(h, s, presented, td, newId, x);
      hide PairsOk, PendingOk, OneLivePerLogin, SidsOk, DevicesOk, TokenIndexOk, DeviceIndexOk, TimesOk, Rotate, Fresh;
    }
    hide *;
  }

  lemma RotationSwaps(h: History, s: Store, presented: Uuid, td: TokenDetails, newId: DeviceId)
    requires Inv(System(s, h)) && presented in h.born && Fresh(h, td) && newId !in h.logins
    ensures var t := Rotate(s, h.born[presented].user, presented, td, newId, h.now);
            && (Rotates(s, h.born[presented].user, presented) <==> Usable(s, presented))
            && if Usable(s, presented) then Swapped(h, s, t, presented, td) else t == s
  {
    RotatesExactlyUsable(h, s, presented, td, newId);
    if Usable(s, presented) {
      RefreshKeepsDevice(System(s, h), presented, td, newId);
      RotationUsable(h, s, presented, td, newId);
      hide Inv, Rotate, Usable, Fresh, Issue, SessionOfAccess;
      RotateKeepsInv(h, s, presented, td, newId);
    }
  }

  // The owner of an issued token can rotate it exactly while it is usable, and gets what
  // Swapped says; a refusal changes nothing
  ghost predicate RotatedAsPromised(s: Store, t: Store, ok: bool, user: UserId, presented: Uuid, td: TokenDetails,
                                    newId: DeviceId, now: Time) {
    forall h | Inv(System(s, h)) && h.now == now && Fresh(h, td) && newId !in h.logins
               && presented in h.born && h.born[presented].user == user ::
      (ok <==> Usable(s, presented)) && if ok then Swapped(h, s, t, presented, td) else t == s
  }

  lemma RotationKeepsPromise(s: Store, user: UserId, presented: Uuid, td: TokenDetails, newId: DeviceId, now: Time)
    ensures RotatedAsPromised(s, Rotate(s, user, presented, td, newId, now), Rotates(s, user, presented), user,
                presented, td, newId, now)
  {
    hide Inv, Swapped, Usable, Rotate, Rotates;
    forall h | Inv(System(s, h)) && h.now == now && Fresh(h, td) && newId !in h.logins
               && presented in h.born && h.born[presented].user == user
      ensures Rotates(s, user, presented) <==> Usable(s, presented)
      ensures var t := Rotate(s, user, presented, td, newId, now);
              if Usable(s, presented) then Swapped(h, s, t, presented, td) else t == s
    {
      RotationSwaps(h, s, presented, td, newId);
    }
  }

  // The revocations end the login of the session meant, and leave every other as it was
  ghost predicate EndsOnly(s: Store, t: Store, ended: Option<DeviceId>) {
    forall h | Inv(System(s, h)) :: Ended(h, s, t, if ended.Some? then {ended.value} else {})
  }

  lemma RevocationEndsOnly(s: Store, user: UserId, d: DeviceId)
    ensures EndsOnly(s, SessionStore.RevokeSession(s, user, d),
                if d in s.device && s.device[d].user == user then Some(d) else None)
  {
    forall h | Inv(System(s, h))
      ensures Ended(h, s, SessionStore.RevokeSession(s, user, d),
                  if d in s.device && s.device[d].user == user then {d} else {})
    {
      var sys := System(s, h);
      hide Inv, Ended, SessionStore.RevokeSession;
      RevocationEnds(sys, SignOut(user, d));
    }
    hide Inv, Ended, SessionStore.RevokeSession;
  }

  lemma LogoutEndsOnly(s: Store, access: Uuid)
    ensures EndsOnly(s, Logout(s, access), SessionStore.SessionOfAccess(s, access))
  {
    forall h | Inv(System(s, h))
      ensures var d := SessionStore.SessionOfAccess(s, access);
              Ended(h, s, Logout(s, access), if d.Some? then {d.value} else {})
    {
      RevocationEnds(System(s, h), LogOut(access));
      if access in s.access {
        LogoutRevokesSession(h, s, access);
        AccessKnown(h, s);
      }
      hide Ended, Logout;
    }
    hide Inv, Ended, Logout;
  }

  // No key of the user is left, and those of all others are as they were
  ghost predicate NothingLeft(h: History, s: Store, t: Store, user: UserId) {
    && Ended(h, s, t, LoginsOf(h, user))
    && user !in t.tokens && user !in t.devices && (forall d | d in t.device :: t.device[d].user != user)
    && (forall x | Known(h, x) && BirthOf(h, x).user == user :: !HasKey(t, x) && x !in t.prev && x !in t.sid)
  }

  lemma RevokeAllLeaves(h: History, s: Store, user: UserId)
    requires Inv(System(s, h))
    ensures NothingLeft(h, s, RevokeAll(s, user), user)
  {
    hide Inv, Ended, RevokeAll, LoginsOf, Known, BirthOf;
    RevokeAllEnds(h, s, user);
    RevokeAllLeavesNothing(System(s, h), user);
  }

  // The two halves of a new pair name each other, every other token is as it was, and the
  // user's set goes on listing every key and outliving it
  ghost predicate Paired(s: Store, t: Store, user: UserId, td: TokenDetails) {
    && td.access in t.access && t.access[td.access].partner == td.refresh && t.access[td.access].user == user
    && td.refresh in t.refresh && t.refresh[td.refresh].partner == td.access && t.refresh[td.refresh].user == user
    && (forall x | x != td.access && x != td.refresh ::
          (HasKey(t, x) <==> HasKey(s, x)) && (HasKey(t, x) ==> KeyOf(t, x) == KeyOf(s, x)))
    && (KeysIndexed(s) && NewPair(s, user, td) ==> KeysIndexed(t))
  }

  predicate NewPair(s: Store, user: UserId, td: TokenDetails) {
    && td.access != td.refresh && !HasKey(s, td.access) && !HasKey(s, td.refresh) && td.atExpires <= td.rtExpires
    && (user in s.tokens ==> s.tokens[user].exp <= td.rtExpires)
  }

  lemma AuthPairs(s: Store, user: UserId, td: TokenDetails)
    ensures Paired(s, SessionStore.CreateAuth(s, user, td), user, td)
  {
    var t := SessionStore.CreateAuth(s, user, td);
    if KeysIndexed(s) && NewPair(s, user, td) {
      forall x | HasKey(t, x)
        ensures Indexed(t.tokens, KeyOf(t, x).user, x, KeyOf(t, x).exp)
      {
        if x != td.access && x != td.refresh {
          assert KeyOf(t, x) == KeyOf(s, x);
          assert Indexed(s.tokens, KeyOf(s, x).user, x, KeyOf(s, x).exp);
        }
      }
    }
  }

  class UsersRepository {
    var access: map<Uuid, Token>
    var refresh: map<Uuid, Token>
    var rot: map<Uuid, Token>
    var prev: map<Uuid, BackLink>
    var sid: map<Uuid, Sid>
    var device: map<DeviceId, Device>
    var tokens: map<UserId, Index<Uuid>>
    var devices: map<UserId, Index<DeviceId>>

    ghost function View(): Store
      reads this
    {
      Store(access, refresh, rot, prev, sid, device, tokens, devices)
    }

    constructor ()
      ensures View() == EMPTY
    {
      access, refresh, rot, prev := map[], map[], map[], map[];
      sid, device, tokens, devices := map[], map[], map[], map[];
    }

    method CreateAuth(user: UserId, td: TokenDetails)
      modifies this
      ensures View() == SessionStore.CreateAuth(old(View()), user, td)
      ensures Paired(old(View()), View(), user, td)
    {
      AuthPairs(View(), user, td);
      hide Paired;
      access := access[td.access := Token(user, td.refresh, td.atExpires)];
      refresh := refresh[td.refresh := Token(user, td.access, td.rtExpires)];
      tokens := SAdd(tokens, user, {td.access, td.refresh}, td.rtExpires);
    }

    method WriteSession(user: UserId, id: DeviceId, td: TokenDetails)
      modifies this
      ensures View() == SessionStore.WriteSession(old(View()), user, id, td)
    {
      device := device[id := Device(user, td.refresh, td.rtExpires)];
      sid := sid[td.refresh := Sid(id, td.rtExpires)];
      devices := SAdd(devices, user, {id}, td.rtExpires);
    }

    method CarrySession(user: UserId, presented: Uuid, td: TokenDetails, newId: DeviceId)
      modifies this
      ensures View() == SessionStore.CarrySession(old(View()), user, presented, td, newId)
    {
      if presented !in sid {
        WriteSession(user, newId, td);
        return;
      }
      WriteSession(user, sid[presented].device, td);
    }

    // The service's createSession, with OpenSession inlined
    method CreateSession(user: UserId, td: TokenDetails, id: DeviceId)
      modifies this
      ensures View() == SessionStore.CreateSession(old(View()), user, td, id)
      ensures forall h | Inv(System(old(View()), h)) && Fresh(h, td) && id !in h.logins ::
                SignedIn(h, old(View()), View(), user, td, id)
    {
      ghost var s := View();
      forall h | Inv(System(s, h)) && Fresh(h, td) && id !in h.logins
        ensures SignedIn(h, s, SessionStore.CreateSession(s, user, td, id), user, td, id)
      {
        LoginSignsIn(h, s, user, td, id);
      }
      hide SignedIn, Inv, Fresh, Paired;
      CreateAuth(user, td);
      WriteSession(user, id, td);
    }

    method DropPredecessor(user: UserId, refreshUuid: Uuid)
      modifies this
      ensures View() == SessionStore.DropPredecessor(old(View()), user, refreshUuid)
    {
      if refreshUuid !in prev {
        return;
      }
      var previous := prev[refreshUuid].previous;
      prev := prev - {refreshUuid};
      rot := rot - {previous};
      sid := sid - {previous};
      tokens := SRem(tokens, user, {previous});
    }

    // revokeSession, given either half of the pair; deleted counts the token keys removed
    method RevokePair(uuid: Uuid, byRefresh: bool) returns (deleted: nat)
      modifies this
      ensures View() == if byRefresh then RevokeByRefresh(old(View()), uuid) else RevokeByAccess(old(View()), uuid)
      ensures deleted > 0 <==> uuid in (if byRefresh then old(refresh) else old(access))
    {
      deleted := 0;
      if uuid !in (if byRefresh then refresh else access) {
        return;
      }
      var Token(user, partner, _) := if byRefresh then refresh[uuid] else access[uuid];
      var refreshUuid := if byRefresh then uuid else partner;
      var accessUuid := if byRefresh then partner else uuid;
      deleted := (if refreshUuid in refresh then 1 else 0) + (if accessUuid in access then 1 else 0);
      access := access - {accessUuid};
      refresh := refresh - {refreshUuid};
      sid := sid - {refreshUuid};
      tokens := SRem(tokens, user, {uuid, partner});
      DropPredecessor(user, refreshUuid);
    }

    method EndSession(user: UserId, id: DeviceId)
      modifies this
      ensures View() == SessionStore.EndSession(old(View()), user, id)
    {
      device := device - {id};
      devices := SRem(devices, user, {id});
    }

    method SessionOfAccess(accessUuid: Uuid) returns (id: Option<DeviceId>)
      ensures id == SessionStore.SessionOfAccess(View(), accessUuid)
    {
      if accessUuid !in access {
        return None;
      }
      var refreshUuid := access[accessUuid].partner;
      if refreshUuid !in sid {
        return None;
      }
      return Some(sid[refreshUuid].device);
    }

    method RevokeSessionByAccess(accessUuid: Uuid) returns (deleted: nat)
      modifies this
      ensures View() == Logout(old(View()), accessUuid)
      ensures EndsOnly(old(View()), View(), SessionStore.SessionOfAccess(old(View()), accessUuid))
      ensures deleted > 0 <==> accessUuid in old(access)
    {
      LogoutEndsOnly(View(), accessUuid);
      hide EndsOnly;
      var session := SessionOfAccess(accessUuid);
      var owner := if accessUuid in access then Some(access[accessUuid].user) else None;
      deleted := RevokePair(accessUuid, false);
      if session.None? || owner.None? {
        return;
      }
      EndSession(owner.value, session.value);
    }

    method RevokeSession(user: UserId, id: DeviceId) returns (revoked: bool)
      modifies this
      ensures View() == SessionStore.RevokeSession(old(View()), user, id)
      ensures revoked <==> id in old(device) && old(device)[id].user == user
      ensures EndsOnly(old(View()), View(), if revoked then Some(id) else None)
    {
      RevocationEndsOnly(View(), user, id);
      hide EndsOnly;
      if id !in device || device[id].user != user {
        return false;
      }
      var _ := RevokePair(device[id].refresh, true);
      EndSession(user, id);
      return true;
    }

    // The claim of a rotation: when the claimed token would have expired, if there was one
    method RetireRefresh(user: UserId, presented: Uuid) returns (life: Option<Time>)
      modifies this
      ensures (View(), life) == Retire(old(View()), user, presented)
    {
      if presented in refresh {
        var live := refresh[presented];
        if live.user != user {
          return None;
        }
        refresh := refresh - {presented};
        access := access - {live.partner};
        tokens := SRem(tokens, user, {live.partner});
        DropPredecessor(user, presented);
        return Some(live.exp);
      }
      if presented !in rot {
        return None;
      }
      var pending := rot[presented];
      rot := rot - {presented};
      if pending.user != user {
        return None;
      }
      prev := prev - {pending.partner};
      var _ := RevokePair(pending.partner, true);
      return Some(pending.exp);
    }

    method RotateSession(user: UserId, presented: Uuid, td: TokenDetails, newId: DeviceId, now: Time) returns (ok: bool)
      modifies this
      ensures View() == Rotate(old(View()), user, presented, td, newId, now)
      ensures ok <==> Rotates(old(View()), user, presented)
      ensures RotatedAsPromised(old(View()), View(), ok, user, presented, td, newId, now)
    {
      RotationKeepsPromise(View(), user, presented, td, newId, now);
      hide RotatedAsPromised, Paired;
      var life := RetireRefresh(user, presented);
      if life.None? {
        return false;
      }
      var exp := life.value;
      if exp <= now {
        exp := td.rtExpires;
      }
      rot := rot[presented := Token(user, td.refresh, exp)];
      prev := prev[td.refresh := BackLink(presented, exp)];
      CreateAuth(user, td);
      CarrySession(user, presented, td, newId);
      return true;
    }

    method RefreshSessionExists(refreshUuid: Uuid) returns (alive: bool)
      ensures alive <==> Usable(View(), refreshUuid)
    {
      alive := refreshUuid in refresh || refreshUuid in rot;
    }

    method RevokeAllSessions(user: UserId)
      modifies this
      ensures View() == RevokeAll(old(View()), user)
      ensures forall h | Inv(System(old(View()), h)) :: NothingLeft(h, old(View()), View(), user)
    {
      ghost var s := View();
      forall h | Inv(System(s, h))
        ensures NothingLeft(h, s, RevokeAll(s, user), user)
      {
        RevokeAllLeaves(h, s, user);
      }
      hide NothingLeft, Inv;
      var uuids := Ids(tokens, user);
      var ids := Ids(devices, user);
      access, refresh, rot := access - uuids, refresh - uuids, rot - uuids;
      prev, sid := prev - uuids, sid - uuids;
      device := device - ids;
      tokens, devices := tokens - {user}, devices - {user};
    }

    // One round of the listing: a session whose newest token is gone is forgotten
    method KeepIfAlive(user: UserId, id: DeviceId) returns (alive: bool)
      modifies this
      ensures alive <==> DeviceAlive(old(View()), user, id)
      ensures View() == if alive then old(View()) else SessionStore.EndSession(old(View()), user, id)
    {
      alive := false;
      if id in device && device[id].user == user {
        alive := RefreshSessionExists(device[id].refresh);
      }
      if !alive {
        EndSession(user, id);
      }
    }

    // Walks the listed ids and drops the dead ones; Redis keeps no empty set
    method ListSessions(user: UserId) returns (live: set<DeviceId>)
      requires forall u | u in devices :: devices[u].ids != {}
      modifies this
      ensures View() == Forget(old(View()), user)
      ensures live == LiveDevices(old(View()), user)
    {
      ghost var s := View();
      var ids := Ids(devices, user);
      var rest := ids;
      live := {};
      while rest != {}
        invariant rest <= ids && live <= ids - rest
        invariant forall id | id in ids - rest :: id in live <==> DeviceAlive(s, user, id)
        invariant View() == Forgotten(s, user, ids - rest - live)
        decreases rest
      {
        SomeMember(rest);
        var id :| id in rest;
        ghost var dead := ids - rest - live;
        var alive := KeepIfAlive(user, id);
        ForgottenAlive(s, user, dead, id);
        ForgottenMore(s, user, dead, id);
        rest := rest - {id};
        if alive {
          live := live + {id};
          assert ids - rest - live == dead;
        } else {
          assert ids - rest - live == dead + {id};
        }
      }
      assert live == LiveDevices(s, user);
      assert ids - {} - live == ids - live;
      ForgottenIsForget(s, user);
    }

    // Every session of the user but the one asking. The ghost result is the listing, in the
    // order it was gone through.
    method RevokeOtherSessions(user: UserId, accessUuid: Uuid) returns (ghost ids: seq<DeviceId>)
      requires forall u | u in devices :: devices[u].ids != {}
      modifies this
      ensures Distinct(ids) && forall d :: d in ids <==> d in LiveDevices(old(View()), user)
      ensures View() == RevokeOthers(Forget(old(View()), user), user,
                            SessionStore.SessionOfAccess(old(View()), accessUuid), ids)
      ensures EndsOthers(old(View()), View(), user, SessionStore.SessionOfAccess(old(View()), accessUuid))
    {
      ghost var s := View();
      var rest := ListSessions(user);
      ghost var live := rest;
      var current := SessionOfAccess(accessUuid);
      ids := [];
      while rest != {}
        invariant rest <= live && Distinct(ids) && forall d :: d in ids <==> d in live - rest
        invariant View() == RevokeOthers(Forget(s, user), user, current, ids)
        decreases rest
      {
        hide Forget, LiveDevices, EndsOthers, EndsOnly, Distinct;
        SomeMember(rest);
        var id :| id in rest;
        OneMoreRevoked(Forget(s, user), user, current, ids, id);
        DistinctAppended(ids, id);
        if Some(id) != current {
          var _ := RevokeSession(user, id);
        }
        rest := rest - {id};
        ids := ids + [id];
      }
      OthersEnd(s, user, current, ids);
    }
  }

  lemma DistinctAppended(ids: seq<DeviceId>, id: DeviceId)
    requires Distinct(ids) && id !in ids
    ensures Distinct(ids + [id])
  {
  }

  lemma {:induction false} OneMoreRevoked(s: Store, user: UserId, current: Option<DeviceId>, ids: seq<DeviceId>,
                                          id: DeviceId)
    ensures var t := RevokeOthers(s, user, current, ids);
            RevokeOthers(s, user, current, ids + [id])
            == if Some(id) == current then t else SessionStore.RevokeSession(t, user, id)
    decreases |ids|
  {
    hide SessionStore.RevokeSession;
    if ids == [] {
      assert ids + [id] == [id];
    } else {
      assert (ids + [id])[1..] == ids[1..] + [id];
      OneMoreRevoked(if Some(ids[0]) == current then s else SessionStore.RevokeSession(s, user, ids[0]), user, current,
          ids[1..], id);
    }
  }

  // The logins of all live sessions of the user end but that of the session asking
  ghost predicate EndsOthers(s: Store, t: Store, user: UserId, current: Option<DeviceId>) {
    forall h | Inv(System(s, h)) :: Ended(h, s, t, set d | d in LiveDevices(s, user) && Some(d) != current)
  }

  lemma OthersListed(live: set<DeviceId>, current: Option<DeviceId>, ids: seq<DeviceId>)
    requires forall d :: d in ids <==> d in live
    ensures (set d | d in ids && Some(d) != current) == set d | d in live && Some(d) != current
  {
    var some, others := set d | d in ids && Some(d) != current, set d | d in live && Some(d) != current;
    assert forall d | d in some :: d in others;
    assert forall d | d in others :: d in some;
  }

  lemma OthersEnd(s: Store, user: UserId, current: Option<DeviceId>, ids: seq<DeviceId>)
    requires Distinct(ids) && forall d :: d in ids <==> d in LiveDevices(s, user)
    ensures EndsOthers(s, RevokeOthers(Forget(s, user), user, current, ids), user, current)
  {
    OthersListed(LiveDevices(s, user), current, ids);
    forall h | Inv(System(s, h))
      ensures Ended(h, s, RevokeOthers(Forget(s, user), user, current, ids), set d | d in ids && Some(d) != current)
    {
      hide *;
      SignOutOthersEnds(h, s, user, current, ids);
    }
    hide Inv, Ended, RevokeOthers, Forget, LiveDevices, Distinct;
  }

  function Forgotten(s: Store, user: UserId, dead: set<DeviceId>): Store {
    if dead == {} then s else s.(device := s.device - dead, devices := SRem(s.devices, user, dead))
  }

  lemma ForgottenIsForget(s: Store, user: UserId)
    requires forall u | u in s.devices :: s.devices[u].ids != {}
    ensures Forgotten(s, user, Ids(s.devices, user) - LiveDevices(s, user)) == Forget(s, user)
  {
    var dead := Ids(s.devices, user) - LiveDevices(s, user);
    if dead == {} {
      assert s.device - dead == s.device;
      assert Ids(s.devices, user) - dead == Ids(s.devices, user);
    }
  }

  lemma SomeMember(ids: set<DeviceId>)
    requires ids != {}
    ensures exists id :: id in ids
  {
    assert (exists id :: id in ids) || ids == {};
  }

  lemma ForgottenAlive(s: Store, user: UserId, dead: set<DeviceId>, id: DeviceId)
    requires id !in dead
    ensures DeviceAlive(Forgotten(s, user, dead), user, id) <==> DeviceAlive(s, user, id)
  {
  }

  lemma ForgottenMore(s: Store, user: UserId, dead: set<DeviceId>, id: DeviceId)
    ensures EndSession(Forgotten(s, user, dead), user, id) == Forgotten(s, user, dead + {id})
  {
    SRemTwice(s.devices, user, dead, {id});
    assert s.device - dead - {id} == s.device - (dead + {id});
    if dead == {} {
      assert dead + {id} == {id};
    }
  }

  lemma SRemTwice<T>(index: map<UserId, Index<T>>, user: UserId, one: set<T>, two: set<T>)
    ensures SRem(SRem(index, user, one), user, two) == SRem(index, user, one + two)
  {
    assert Ids(index, user) - one - two == Ids(index, user) - (one + two);
  }
}
