/**
 Whole runs of the session store: logins, refreshes, logouts, revocations, listings and
 the passing of time, in any order and for any number of users.
 */
module SessionRuns {
  import opened Collections
  import opened Options
  import opened SessionStore
  import opened SessionInvariant
  import opened SessionRevocation
  import opened SessionLogin
  import opened SessionRotation

  // ---- Every step keeps the invariant ----

  lemma ReinstallRetains(h: History, e: Store, h2: History, t: Store, user: UserId, d: DeviceId, p: Uuid, life: Time,
                         td: TokenDetails)
    requires HistoryOk(h) && SignedOut(h, e, user, d, p, life) && LoggedIn(h, e, h2, t, user, d, td)
    requires Issued(h2, t)
    ensures Retained(h2, t, Reinstalled(e, user, d, p, life, td), user, p, life, td.refresh)
  {
    assert !HasKey(t, p);
    hide HasKey, Retain;
  }

  lemma ReinstallKeepsInv(h: History, e: Store, user: UserId, d: DeviceId, p: Uuid, life: Time, td: TokenDetails)
    requires Inv(System(e, h)) && SignedOut(h, e, user, d, p, life) && Vacant(h, e, d) && Fresh(h, td)
    requires d in h.logins && h.logins[d] == user
    ensures Inv(System(Reinstalled(e, user, d, p, life, td), Issue(h, user, d, td)))
  {
    var h2, t := Issue(h, user, d, td), CreateSession(e, user, td, d);
    hide HistoryOk, Issued, PairsOk, PendingOk, OneLivePerLogin, SidsOk, DevicesOk, TokenIndexOk, DeviceIndexOk,
      TimesOk, SignedOut, CreateSession, Fresh, Vacant, Issue, Retained, Retain;
    LoginKeepsInv(h, e, h2, t, user, d, td);
    ReinstallRetains(h, e, h2, t, user, d, p, life, td);
    RetainKeepsInv(h2, t, Reinstalled(e, user, d, p, life, td), user, p, life, td.refresh);
  }

  lemma RotateKeepsInv(h: History, s: Store, p: Uuid, td: TokenDetails, newId: DeviceId)
    requires Inv(System(s, h)) && Usable(s, p) && Fresh(h, td)
    ensures var Birth(user, d, _) := h.born[p];
            Inv(System(Rotate(s, user, p, td, newId, h.now), Issue(h, user, d, td)))
  {
    var Birth(user, d, life) := h.born[p];
    SignedOutLeaves(h, s, p);
    RotateReinstalls(h, s, p, td, newId);
    hide HistoryOk, Issued, PairsOk, PendingOk, OneLivePerLogin, SidsOk, DevicesOk, TokenIndexOk, DeviceIndexOk,
      TimesOk, SignedOut, RevokeSession, Rotate, Rotates, Usable, Fresh, Vacant, Issue, Reinstalled;
    ReinstallKeepsInv(h, RevokeSession(s, user, d), user, d, p, life, td);
  }

  lemma PurgeKeepsHistory(h: History, s: Store, now: Time)
    requires HistoryOk(h) && Issued(h, s)
    ensures HistoryOk(h.(now := now)) && Issued(h.(now := now), Purge(s, now))
  {
  }

  lemma PurgeKeepsPairs(h: History, s: Store, now: Time)
    requires HistoryOk(h) && Issued(h, s) && PairsOk(h, s)
    requires Issued(h.(now := now), Purge(s, now))
    ensures PairsOk(h.(now := now), Purge(s, now))
  {
  }

  lemma PurgeKeepsOneLive(h: History, s: Store, now: Time)
    requires Issued(h, s) && OneLivePerLogin(h, s)
    requires Issued(h.(now := now), Purge(s, now))
    ensures OneLivePerLogin(h.(now := now), Purge(s, now))
  {
  }

  lemma PurgeKeepsPending(h: History, s: Store, now: Time)
    requires Issued(h, s) && PendingOk(h, s) && PairsOk(h, s)
    requires Issued(h.(now := now), Purge(s, now))
    ensures PendingOk(h.(now := now), Purge(s, now))
  {
  }

  lemma PurgeKeepsSids(h: History, s: Store, now: Time)
    requires Issued(h, s) && PendingOk(h, s) && PairsOk(h, s) && SidsOk(h, s)
    requires Issued(h.(now := now), Purge(s, now))
    ensures SidsOk(h.(now := now), Purge(s, now))
  {
  }

  lemma PurgeKeepsDevices(h: History, s: Store, now: Time)
    requires Issued(h, s) && PairsOk(h, s) && DevicesOk(h, s)
    requires Issued(h.(now := now), Purge(s, now))
    ensures DevicesOk(h.(now := now), Purge(s, now))
  {
  }

  lemma KeyLife(h: History, s: Store, x: Uuid)
    requires HistoryOk(h) && Issued(h, s) && PairsOk(h, s) && PendingOk(h, s) && HasKey(s, x)
    ensures Known(h, x) && KeyOf(s, x).exp == LifeOf(h, x)
    ensures x in s.access ==> x !in s.refresh && x !in s.rot
    ensures x in s.refresh ==> x !in s.rot
  {
  }

  lemma PurgeKey(h: History, s: Store, now: Time, x: Uuid)
    requires HistoryOk(h) && Issued(h, s) && PairsOk(h, s) && PendingOk(h, s)
    ensures HasKey(Purge(s, now), x) <==> HasKey(s, x) && now < KeyOf(s, x).exp
    ensures HasKey(Purge(s, now), x) ==> KeyOf(Purge(s, now), x) == KeyOf(s, x)
    ensures HasKey(s, x) ==> Known(h, x) && KeyOf(s, x).exp == LifeOf(h, x)
  {
    if HasKey(s, x) {
      KeyLife(h, s, x);
    }
    hide HistoryOk, Issued, PairsOk, PendingOk, Known, LifeOf;
  }

  lemma PurgeIndex<T(!new)>(index: map<UserId, Index<T>>, now: Time)
    ensures var after := map u | u in index && now < index[u].exp :: index[u];
            forall u, x :: Listed(after, u, x) <==> Listed(index, u, x) && now < index[u].exp
  {
  }

  lemma PurgeKeepsTokens(h: History, s: Store, now: Time)
    requires HistoryOk(h) && Issued(h, s) && PairsOk(h, s) && PendingOk(h, s) && TokenIndexOk(h, s) && h.now <= now
    ensures TokenIndexOk(h.(now := now), Purge(s, now))
  {
    var t := Purge(s, now);
    PurgeIndex(s.tokens, now);
    assert forall x | Known(h, x) ::
        Known(h.(now := now), x) && BirthOf(h.(now := now), x) == BirthOf(h, x)
        && LifeOf(h.(now := now), x) == LifeOf(h, x);
    hide HistoryOk, Issued, PairsOk, PendingOk, HasKey, KeyOf, Known, BirthOf, LifeOf;
    forall x
      ensures HasKey(t, x) <==> HasKey(s, x) && now < KeyOf(s, x).exp
      ensures HasKey(t, x) ==> KeyOf(t, x) == KeyOf(s, x)
      ensures HasKey(s, x) ==> Known(h, x) && KeyOf(s, x).exp == LifeOf(h, x)
    {
      PurgeKey(h, s, now, x);
    }
    hide Purge;
  }

  lemma PurgeKeepsDeviceIndex(h: History, s: Store, now: Time)
    requires DeviceIndexOk(h, s)
    ensures DeviceIndexOk(h.(now := now), Purge(s, now))
  {
    PurgeIndex(s.devices, now);
  }

  lemma PurgeKeepsTimes(h: History, s: Store, now: Time)
    requires TimesOk(h, s)
    ensures TimesOk(h.(now := now), Purge(s, now))
  {
  }

  // Keys of one login expire in an order that keeps the invariant: the access token before
  // its refresh token, rot and prev together, and no set before what it indexes
  lemma PurgeKeepsInv(h: History, s: Store, now: Time)
    requires Inv(System(s, h)) && h.now <= now
    ensures Inv(System(Purge(s, now), h.(now := now)))
  {
    hide HistoryOk, Issued, PairsOk, PendingOk, OneLivePerLogin, SidsOk, DevicesOk, TokenIndexOk, DeviceIndexOk,
      TimesOk, Purge;
    PurgeKeepsHistory(h, s, now);
    PurgeKeepsPairs(h, s, now);
    PurgeKeepsOneLive(h, s, now);
    PurgeKeepsPending(h, s, now);
    PurgeKeepsSids(h, s, now);
    PurgeKeepsDevices(h, s, now);
    PurgeKeepsTokens(h, s, now);
    PurgeKeepsDeviceIndex(h, s, now);
    PurgeKeepsTimes(h, s, now);
  }

  // ---- Signing the other devices out ----

  // RevokeOtherSessions, over the sessions ListSessions answered with, in their order
  function RevokeOthers(s: Store, user: UserId, current: Option<DeviceId>, ids: seq<DeviceId>): Store
    decreases |ids|
  {
    if ids == [] then s
    else
      RevokeOthers(if Some(ids[0]) == current then s else RevokeSession(s, user, ids[0]), user, current, ids[1..])
  }

  lemma EndedNothing(h: History, s: Store)
    requires TimesOk(h, s)
    ensures Ended(h, s, s, {})
  {
    KeepNone(h, s.access);
    KeepNone(h, s.refresh);
    KeepNone(h, s.rot);
    KeepNone(h, s.prev);
    KeepNone(h, s.sid);
    hide Keep;
  }

  lemma KeepTwice<V>(h: History, m: map<Uuid, V>, one: set<DeviceId>, two: set<DeviceId>)
    ensures Keep(h, Keep(h, m, one), two) == Keep(h, m, one + two)
  {
  }

  lemma TrimmedTwice(h: History, s: Store, t: Store, w: Store, one: set<DeviceId>, two: set<DeviceId>)
    requires t.access == Keep(h, s.access, one) && t.refresh == Keep(h, s.refresh, one) && t.rot == Keep(h, s.rot, one)
    requires TokensTrimmed(h, s, t, one) && TokensTrimmed(h, t, w, two)
    ensures TokensTrimmed(h, s, w, one + two)
  {
    forall x
      ensures HasKey(t, x) <==> HasKey(s, x) && !Of(h, one, x)
      ensures Of(h, one + two, x) <==> Of(h, one, x) || Of(h, two, x)
    {
      EndedKeepsKey(h, s, t, one, x);
    }
    hide Keep, Of, HasKey, Listed;
  }

  lemma DevicesEndedTwice(s: Store, t: Store, w: Store, one: set<DeviceId>, two: set<DeviceId>)
    requires t.device == map d | d in s.device && d !in one :: s.device[d]
    requires w.device == map d | d in t.device && d !in two :: t.device[d]
    requires DevicesTrimmed(s, t, one) && DevicesTrimmed(t, w, two)
    ensures w.device == map d | d in s.device && d !in one + two :: s.device[d]
    ensures DevicesTrimmed(s, w, one + two)
  {
    hide Listed;
  }

  lemma EndedTwice(h: History, s: Store, t: Store, w: Store, one: set<DeviceId>, two: set<DeviceId>)
    requires Ended(h, s, t, one) && Ended(h, t, w, two)
    ensures Ended(h, s, w, one + two)
  {
    KeepTwice(h, s.access, one, two);
    KeepTwice(h, s.refresh, one, two);
    KeepTwice(h, s.rot, one, two);
    KeepTwice(h, s.prev, one, two);
    KeepTwice(h, s.sid, one, two);
    TrimmedTwice(h, s, t, w, one, two);
    DevicesEndedTwice(s, t, w, one, two);
    hide Keep, TokensTrimmed, DevicesTrimmed, Listed;
  }

  lemma {:induction false} RevokeOthersEnds(h: History, s: Store, user: UserId, current: Option<DeviceId>,
                                            ids: seq<DeviceId>)
    requires Inv(System(s, h)) && Distinct(ids)
    requires forall d | d in ids :: d in s.device && s.device[d].user == user
    ensures Ended(h, s, RevokeOthers(s, user, current, ids), set d | d in ids && Some(d) != current)
    decreases |ids|
  {
    hide HistoryOk, Issued, PairsOk, PendingOk, OneLivePerLogin, SidsOk, DevicesOk, TokenIndexOk, DeviceIndexOk,
      TimesOk, RevokeSession, TokensTrimmed, DevicesTrimmed, Keep;
    if ids == [] {
      assert (set d | d in ids && Some(d) != current) == {};
      EndedNothing(h, s);
    } else {
      var d, rest := ids[0], ids[1..];
      assert d in ids && d !in rest;
      var others := set x | x in rest && Some(x) != current;
      if Some(d) == current {
        RevokeOthersEnds(h, s, user, current, rest);
        assert others == set x | x in ids && Some(x) != current;
      } else {
        var t := RevokeSession(s, user, d);
        RevokeSessionEnds(h, s, user, d);
        EndedKeepsInv(h, s, t, {d});
        RevokeOthersEnds(h, t, user, current, rest);
        EndedTwice(h, s, t, RevokeOthers(t, user, current, rest), {d}, others);
        assert {d} + others == set x | x in ids && Some(x) != current;
      }
    }
  }

  // ---- Steps and runs ----

  datatype Step =
    | Login(user: UserId, td: TokenDetails, id: DeviceId)
    | Refresh(token: Uuid, td: TokenDetails, newId: DeviceId)
    | LogOut(access: Uuid)
    | SignOut(user: UserId, id: DeviceId)
    | SignOutOthers(access: Uuid, ids: seq<DeviceId>)
    | RevokeEverything(user: UserId)
    | List(user: UserId)
    | Tick(now: Time)

  // The user of an issued access token
  function UserOf(h: History, access: Uuid): UserId
    requires access in h.mate && h.mate[access].refresh in h.born
  {
    h.born[h.mate[access].refresh].user
  }

  // What the callers guarantee: uuids are new, a token presented was issued and its bearer
  // is its owner, and the sessions to sign out are those just listed
  ghost predicate Enabled(sys: System, step: Step) {
    match step
    case Login(_, td, id) => Fresh(sys.h, td) && id !in sys.h.logins
    case Refresh(token, td, newId) => Fresh(sys.h, td) && newId !in sys.h.logins && token in sys.h.born
    case SignOutOthers(access, ids) =>
      && access in sys.h.mate && sys.h.mate[access].refresh in sys.h.born
      && Distinct(ids) && forall d :: d in ids <==> d in LiveDevices(sys.s, UserOf(sys.h, access))
    case Tick(now) => sys.h.now <= now
    case _ => true
  }

  ghost function Apply(sys: System, step: Step): System
    requires Enabled(sys, step)
  {
    var System(s, h) := sys;
    match step
    case Login(user, td, id) => System(CreateSession(s, user, td, id), Issue(h, user, id, td))
    case Refresh(token, td, newId) =>
      var Birth(user, login, _) := h.born[token];
      System(Rotate(s, user, token, td, newId, h.now), if Rotates(s, user, token) then Issue(h, user, login, td) else h)
    case LogOut(access) => System(Logout(s, access), h)
    case SignOut(user, id) => System(RevokeSession(s, user, id), h)
    case SignOutOthers(access, ids) =>
      System(RevokeOthers(Forget(s, UserOf(h, access)), UserOf(h, access), SessionOfAccess(s, access), ids), h)
    case RevokeEverything(user) => System(RevokeAll(s, user), h)
    case List(user) => System(Forget(s, user), h)
    case Tick(now) => System(Purge(s, now), h.(now := now))
  }

  // The logins a step ends, leaving every other one as it is
  ghost function Ends(sys: System, step: Step): set<DeviceId> {
    var System(s, h) := sys;
    match step
    case LogOut(access) => if access in s.access && Known(h, access) then {BirthOf(h, access).login} else {}
    case SignOut(user, id) => if id in s.device && s.device[id].user == user then {id} else {}
    case SignOutOthers(access, ids) => set d | d in ids && Some(d) != SessionOfAccess(s, access)
    case RevokeEverything(user) => LoginsOf(h, user)
    case _ => {}
  }

  predicate Revokes(step: Step) {
    step.LogOut? || step.SignOut? || step.SignOutOthers? || step.RevokeEverything? || step.List?
  }

  lemma AccessKnown(h: History, s: Store)
    requires HistoryOk(h) && Issued(h, s)
    ensures forall a | a in s.access :: a in h.mate && Known(h, a) && BirthOf(h, a) == h.born[h.mate[a].refresh]
  {
  }

  lemma ForgottenDevices(h: History, s: Store, user: UserId, ids: seq<DeviceId>)
    requires Inv(System(s, h)) && forall d :: d in ids <==> d in LiveDevices(s, user)
    ensures forall d | d in ids :: d in Forget(s, user).device && Forget(s, user).device[d].user == user
  {
    DevicesOfUsers(h, s);
    LiveDevicesAreLogins(h, s, user);
    ForgetTrims(h, s, user);
    hide HistoryOk, Issued, PairsOk, PendingOk, OneLivePerLogin, SidsOk, DevicesOk, TokenIndexOk, DeviceIndexOk,
      TimesOk, Forget, LiveDevices, Usable, Listed;
  }

  lemma OthersAfterListing(h: History, s: Store, t: Store, user: UserId, current: Option<DeviceId>, ids: seq<DeviceId>)
    requires Inv(System(s, h)) && Ended(h, s, t, {}) && Distinct(ids)
    requires forall d | d in ids :: d in t.device && t.device[d].user == user
    ensures Ended(h, s, RevokeOthers(t, user, current, ids), set d | d in ids && Some(d) != current)
  {
    var ended := set d | d in ids && Some(d) != current;
    hide Inv, Ended, RevokeOthers, Distinct;
    EndedKeepsInv(h, s, t, {});
    RevokeOthersEnds(h, t, user, current, ids);
    EndedTwice(h, s, t, RevokeOthers(t, user, current, ids), {}, ended);
    assert {} + ended == ended;
  }

  lemma SignOutOthersEnds(h: History, s: Store, user: UserId, current: Option<DeviceId>, ids: seq<DeviceId>)
    requires Inv(System(s, h)) && Distinct(ids) && forall d :: d in ids <==> d in LiveDevices(s, user)
    ensures Ended(h, s, RevokeOthers(Forget(s, user), user, current, ids), set d | d in ids && Some(d) != current)
  {
    hide *;
    ForgottenDevices(h, s, user, ids);
    ForgetEndsNothing(h, s, user);
    OthersAfterListing(h, s, Forget(s, user), user, current, ids);
  }

  // Every revocation ends exactly the logins it is meant to
  lemma RevocationEnds(sys: System, step: Step)
    requires Inv(sys) && Enabled(sys, step) && Revokes(step)
    ensures Ended(sys.h, sys.s, Apply(sys, step).s, Ends(sys, step))
    ensures Apply(sys, step).h == sys.h
  {
    var System(s, h) := sys;
    AccessKnown(h, s);
    EndedNothing(h, s);
    hide HistoryOk, Issued, PairsOk, PendingOk, OneLivePerLogin, SidsOk, DevicesOk, TokenIndexOk, DeviceIndexOk,
      TimesOk, Ended, RevokeAll, Forget, LiveDevices, RevokeByAccess, EndSession, RevokeByRefresh;
    match step
    case LogOut(access) =>
      if access in s.access {
        LogoutRevokesSession(h, s, access);
        RevokeSessionEnds(h, s, s.access[access].user, h.born[h.mate[access].refresh].login);
      }
    case SignOut(user, id) =>
      if id in s.device && s.device[id].user == user {
        RevokeSessionEnds(h, s, user, id);
      }
    case SignOutOthers(access, ids) =>
      SignOutOthersEnds(h, s, UserOf(h, access), SessionOfAccess(s, access), ids);
    case RevokeEverything(user) => RevokeAllEnds(h, s, user);
    case List(user) => ForgetEndsNothing(h, s, user);
  }
}
