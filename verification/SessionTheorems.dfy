/**
 What the session store promises over whole runs.
 */
module SessionTheorems {
  import opened Options
  import opened SessionStore
  import opened SessionInvariant
  import opened SessionRevocation
  import opened SessionLogin
  import opened SessionRotation
  import opened SessionRuns

  lemma FreshInv()
    ensures Inv(FRESH)
  {
    FreshCoupled();
    hide HistoryOk, Issued, PairsOk, PendingOk, OneLivePerLogin, SidsOk, DevicesOk, TimesOk;
    assert forall x :: !HasKey(EMPTY, x);
    assert forall u, x: Uuid :: !Listed(EMPTY.tokens, u, x);
    assert forall u, x: DeviceId :: !Listed(EMPTY.devices, u, x);
  }

  lemma FreshCoupled()
    ensures Coupled(FRESH.h, FRESH.s) && TimesOk(FRESH.h, FRESH.s)
  {
  }

  lemma LoginStepKeepsInv(sys: System, user: UserId, td: TokenDetails, id: DeviceId)
    requires Inv(sys) && Fresh(sys.h, td) && id !in sys.h.logins
    ensures Inv(System(CreateSession(sys.s, user, td, id), Issue(sys.h, user, id, td)))
  {
    var System(s, h) := sys;
    var h2, t := Issue(h, user, id, td), CreateSession(s, user, td, id);
    NewLoginIsVacant(h, s, id);
    assert LoggedIn(h, s, h2, t, user, id, td);
    LoginKeepsInv(h, s, h2, t, user, id, td);
  }

  lemma NewLoginIsVacant(h: History, s: Store, id: DeviceId)
    requires Coupled(h, s) && id !in h.logins
    ensures Vacant(h, s, id)
  {
    hide PairsOk, OneLivePerLogin, SidsOk;
    forall x | HasKey(s, x)
      ensures Known(h, x) && BirthOf(h, x).login != id
    {
      KeyOwner(h, s, x);
    }
  }

  // Every step, whatever came before it, keeps the invariant
  lemma StepKeepsInv(sys: System, step: Step)
    requires Inv(sys) && Enabled(sys, step)
    ensures Inv(Apply(sys, step))
  {
    var System(s, h) := sys;
    if Revokes(step) {
      RevocationEnds(sys, step);
      EndedKeepsInv(h, s, Apply(sys, step).s, Ends(sys, step));
    } else {
      match step
      case Login(user, td, id) => LoginStepKeepsInv(sys, user, td, id);
      case Refresh(token, td, newId) =>
        if Usable(s, token) {
          RotateReinstalls(h, s, token, td, newId);
          RotateKeepsInv(h, s, token, td, newId);
        }
      case Tick(now) => PurgeKeepsInv(h, s, now);
    }
  }

  ghost predicate Legal(sys: System, steps: seq<Step>)
    decreases |steps|
  {
    steps == [] || (Enabled(sys, steps[0]) && Legal(Apply(sys, steps[0]), steps[1..]))
  }

  ghost function Run(sys: System, steps: seq<Step>): System
    requires Legal(sys, steps)
    decreases |steps|
  {
    if steps == [] then sys else Run(Apply(sys, steps[0]), steps[1..])
  }

  lemma {:induction false} RunKeepsInv(sys: System, steps: seq<Step>)
    requires Inv(sys) && Legal(sys, steps)
    ensures Inv(Run(sys, steps))
    decreases |steps|
  {
    hide Inv, Enabled, Apply;
    if steps != [] {
      StepKeepsInv(sys, steps[0]);
      RunKeepsInv(Apply(sys, steps[0]), steps[1..]);
    }
  }

  // ---- Lineage ----

  // In every reachable store a login has at most one live refresh token and at most one
  // pending one, which is the direct predecessor of the live one; live and pending tokens
  // are disjoint, rot and prev are inverse, and every live access token pairs up with a
  // live refresh token that points back.
  lemma Lineage(steps: seq<Step>)
    requires Legal(FRESH, steps)
    ensures var System(s, h) := Run(FRESH, steps);
            && (forall r | r in s.refresh || r in s.rot :: r in h.born)
            && (forall r, q | r in s.refresh && q in s.refresh && h.born[r].login == h.born[q].login :: r == q)
            && (forall p, q | p in s.rot && q in s.rot && h.born[p].login == h.born[q].login :: p == q)
            && (forall p, r | p in s.rot && r in s.refresh && h.born[p].login == h.born[r].login ::
                s.rot[p].partner == r)
            && (forall p | p in s.rot :: s.rot[p].partner in s.refresh)
            && s.refresh.Keys !! s.rot.Keys
            && (forall p | p in s.rot :: s.rot[p].partner in s.prev && s.prev[s.rot[p].partner].previous == p)
            && (forall n | n in s.prev :: s.prev[n].previous in s.rot && s.rot[s.prev[n].previous].partner == n)
            && (forall a | a in s.access ::
                  && s.access[a].partner in s.refresh
                  && s.refresh[s.access[a].partner].partner == a
                  && s.refresh[s.access[a].partner].user == s.access[a].user)
  {
    FreshInv();
    RunKeepsInv(FRESH, steps);
    LineageOfInv(Run(FRESH, steps).h, Run(FRESH, steps).s);
    hide *;
  }

  lemma LineageOfInv(h: History, s: Store)
    requires Coupled(h, s)
    ensures
      && (forall r | r in s.refresh || r in s.rot :: r in h.born)
      && (forall r, q | r in s.refresh && q in s.refresh && h.born[r].login == h.born[q].login :: r == q)
      && (forall p, q | p in s.rot && q in s.rot && h.born[p].login == h.born[q].login :: p == q)
      && (forall p, r | p in s.rot && r in s.refresh && h.born[p].login == h.born[r].login :: s.rot[p].partner == r)
      && (forall p | p in s.rot :: s.rot[p].partner in s.refresh)
      && s.refresh.Keys !! s.rot.Keys
      && (forall p | p in s.rot :: s.rot[p].partner in s.prev && s.prev[s.rot[p].partner].previous == p)
      && (forall n | n in s.prev :: s.prev[n].previous in s.rot && s.rot[s.prev[n].previous].partner == n)
      && (forall a | a in s.access ::
            && s.access[a].partner in s.refresh
            && s.refresh[s.access[a].partner].partner == a
            && s.refresh[s.access[a].partner].user == s.access[a].user)
  {
    forall p, q | p in s.rot && q in s.rot && h.born[p].login == h.born[q].login
      ensures p == q
    {
      assert s.rot[p].partner == s.rot[q].partner;
    }
    hide SidsOk, DevicesOk;
  }

  // ---- Dead stays dead ----

  predicate Dead(sys: System, token: Uuid) {
    token in sys.h.born && !Usable(sys.s, token)
  }

  lemma EndedUsable(h: History, s: Store, t: Store, ended: set<DeviceId>, x: Uuid)
    requires Ended(h, s, t, ended)
    ensures Usable(t, x) <==> Usable(s, x) && !Of(h, ended, x)
    ensures x in t.access <==> x in s.access && !Of(h, ended, x)
  {
    hide TokensTrimmed, DevicesTrimmed, Of;
  }

  lemma DeadStaysDeadOneStep(sys: System, step: Step, token: Uuid)
    requires Inv(sys) && Enabled(sys, step) && Dead(sys, token)
    ensures Dead(Apply(sys, step), token)
  {
    var System(s, h) := sys;
    if Revokes(step) {
      RevocationEnds(sys, step);
      EndedUsable(h, s, Apply(sys, step).s, Ends(sys, step), token);
    } else if step.Refresh? && Usable(s, step.token) {
      RefreshUsable(h, s, step.token, step.td, step.newId, token);
    }
  }

  lemma ReinstalledUsable(e: Store, user: UserId, d: DeviceId, p: Uuid, life: Time, td: TokenDetails, x: Uuid)
    ensures Usable(Reinstalled(e, user, d, p, life, td), x) <==> x == td.refresh || x == p || Usable(e, x)
  {
    hide SAdd;
  }

  lemma SignedOutUsable(h: History, s: Store, p: Uuid, x: Uuid)
    requires Inv(System(s, h)) && Usable(s, p)
    ensures var Birth(user, d, life) := h.born[p];
            && SignedOut(h, RevokeSession(s, user, d), user, d, p, life)
            && (Usable(RevokeSession(s, user, d), x) <==> Usable(s, x) && h.born[x].login != d)
  {
    var Birth(user, d, life) := h.born[p];
    SignedOutLeaves(h, s, p);
    RevokeSessionEnds(h, s, user, d);
    EndedUsable(h, s, RevokeSession(s, user, d), {d}, x);
    if Usable(s, x) {
      OfLogin(h, s, d, x);
    }
    hide *;
  }

  lemma OfLogin(h: History, s: Store, d: DeviceId, x: Uuid)
    requires Coupled(h, s) && Usable(s, x)
    ensures Of(h, {d}, x) <==> h.born[x].login == d
  {
  }

  // After a refresh, usable are the new token, the one presented, and every usable token of
  // another login
  lemma RefreshUsable(h: History, s: Store, p: Uuid, td: TokenDetails, newId: DeviceId, x: Uuid)
    requires Inv(System(s, h)) && Usable(s, p) && Fresh(h, td)
    ensures Rotates(s, h.born[p].user, p)
    ensures Usable(Rotate(s, h.born[p].user, p, td, newId, h.now), x) <==>
            x == td.refresh || x == p || (Usable(s, x) && h.born[x].login != h.born[p].login)
  {
    var Birth(user, d, life) := h.born[p];
    SignedOutUsable(h, s, p, x);
    RotateReinstalls(h, s, p, td, newId);
    ReinstalledUsable(RevokeSession(s, user, d), user, d, p, life, td, x);
    hide *;
  }

  // Once an issued refresh token can no longer be used, no later run makes it usable again
  lemma {:induction false} DeadStaysDead(sys: System, steps: seq<Step>, token: Uuid)
    requires Inv(sys) && Legal(sys, steps) && Dead(sys, token)
    ensures Dead(Run(sys, steps), token)
    decreases |steps|
  {
    hide Inv, Enabled, Apply, Dead;
    if steps != [] {
      StepKeepsInv(sys, steps[0]);
      DeadStaysDeadOneStep(sys, steps[0], token);
      DeadStaysDead(Apply(sys, steps[0]), steps[1..], token);
    }
  }

  // Using the token a rotation handed out kills the token that rotation replaced for good
  lemma UsingTheNewTokenKillsTheOld(sys: System, spent: Uuid, td: TokenDetails, newId: DeviceId, steps: seq<Step>)
    requires Inv(sys) && spent in sys.s.rot
    requires Legal(sys, [Refresh(sys.s.rot[spent].partner, td, newId)] + steps)
    ensures Dead(Run(sys, [Refresh(sys.s.rot[spent].partner, td, newId)] + steps), spent)
  {
    var System(s, h) := sys;
    var step := Refresh(s.rot[spent].partner, td, newId);
    assert ([step] + steps)[1..] == steps;
    var next := Apply(sys, step);
    RefreshUsable(h, s, step.token, td, newId, spent);
    StepKeepsInv(sys, step);
    DeadStaysDead(next, steps, spent);
  }

  // RotateSession answers true exactly for a token that RefreshSessionExists reports, and a
  // refusal changes nothing
  lemma RotatesExactlyUsable(h: History, s: Store, p: Uuid, td: TokenDetails, newId: DeviceId)
    requires Inv(System(s, h)) && p in h.born && Fresh(h, td)
    ensures Rotates(s, h.born[p].user, p) <==> Usable(s, p)
    ensures !Usable(s, p) ==> Rotate(s, h.born[p].user, p, td, newId, h.now) == s
  {
    if Usable(s, p) {
      RotateReinstalls(h, s, p, td, newId);
    }
  }

  // Whatever the store, the record of a rotation lives as long as the token presented would
  // have, and as long as the new token when that time is up
  lemma RecordOutlivesTheClaim(s: Store, user: UserId, p: Uuid, td: TokenDetails, newId: DeviceId, now: Time,
                               upTo: Progress)
    requires Rotates(s, user, p) && now < td.rtExpires
    ensures p in s.refresh || p in s.rot
    ensures var t := RotateUpTo(s, user, p, td, newId, now, upTo);
            var life := if p in s.refresh then s.refresh[p].exp else s.rot[p].exp;
            && p in t.rot && t.rot[p] == Token(user, td.refresh, t.rot[p].exp)
            && td.refresh in t.prev && t.prev[td.refresh] == BackLink(p, t.rot[p].exp)
            && now < t.rot[p].exp && (now < life ==> t.rot[p].exp == life)
            && (life <= now ==> t.rot[p].exp == td.rtExpires)
  {
    hide SAdd, SRem, RevokeByRefresh, DropPredecessor;
  }

  // A rotation by anyone but the owner is refused. It takes nothing from a live token, but
  // the record of a pending one is taken out before its owner is looked at, and with it the
  // replay.
  lemma ForeignRotationIsRefused(h: History, s: Store, user: UserId, p: Uuid, td: TokenDetails, newId: DeviceId)
    requires Inv(System(s, h)) && p in h.born && h.born[p].user != user
    ensures !Rotates(s, user, p)
    ensures var t := Rotate(s, user, p, td, newId, h.now);
            && t == s.(rot := t.rot)
            && t.rot.Keys == s.rot.Keys - {p} && (forall q | q in t.rot :: t.rot[q] == s.rot[q])
            && (Usable(t, p) <==> p in s.refresh)
  {
    hide OneLivePerLogin, SidsOk, DevicesOk, TokenIndexOk, DeviceIndexOk, TimesOk;
  }

  // ---- Revocations ----

  // A logout, the revocation of one session, of the others or of everything ends every
  // token of the logins meant and no other token
  lemma RevocationEndsItsLogins(sys: System, step: Step, x: Uuid)
    requires Inv(sys) && Enabled(sys, step) && Revokes(step)
    ensures Usable(Apply(sys, step).s, x) <==> Usable(sys.s, x) && !Of(sys.h, Ends(sys, step), x)
    ensures x in Apply(sys, step).s.access <==> x in sys.s.access && !Of(sys.h, Ends(sys, step), x)
  {
    hide Inv, Enabled, Revokes, Apply, Ends, Ended, Usable;
    RevocationEnds(sys, step);
    EndedUsable(sys.h, sys.s, Apply(sys, step).s, Ends(sys, step), x);
  }

  // After a user's everything is revoked no key of theirs is left in any map, and every key
  // of every other user is as it was
  lemma RevokeAllLeavesNothing(sys: System, user: UserId)
    requires Inv(sys)
    ensures var System(s, h) := sys; var t := RevokeAll(s, user);
            && user !in t.tokens && user !in t.devices
            && (forall d | d in t.device :: t.device[d].user != user)
            && (forall x | Known(h, x) && BirthOf(h, x).user == user ::
                  x !in t.access && x !in t.refresh && x !in t.rot && x !in t.prev && x !in t.sid)
            && (forall x | Known(h, x) && BirthOf(h, x).user != user ::
                  && (x in s.access <==> x in t.access) && (x in s.access ==> t.access[x] == s.access[x])
                  && (x in s.refresh <==> x in t.refresh) && (x in s.refresh ==> t.refresh[x] == s.refresh[x])
                  && (x in s.rot <==> x in t.rot) && (x in s.rot ==> t.rot[x] == s.rot[x])
                  && (x in s.prev <==> x in t.prev) && (x in s.prev ==> t.prev[x] == s.prev[x])
                  && (x in s.sid <==> x in t.sid) && (x in s.sid ==> t.sid[x] == s.sid[x]))
            && (forall d | d in s.device && s.device[d].user != user :: d in t.device && t.device[d] == s.device[d])
            && t.tokens == s.tokens - {user} && t.devices == s.devices - {user}
  {
    var System(s, h) := sys;
    RevokeAllEnds(h, s, user);
    DevicesOfUsers(h, s);
    hide Issued, PairsOk, PendingOk, OneLivePerLogin, SidsOk, DevicesOk, TokenIndexOk, DeviceIndexOk, TimesOk,
      TokensTrimmed, DevicesTrimmed, Usable, Listed;
    forall x | Known(h, x)
      ensures Of(h, LoginsOf(h, user), x) <==> BirthOf(h, x).user == user
    {
      KnownLogin(h, user, x);
    }
    hide HistoryOk, Of, BirthOf;
  }

  // After the other sessions are signed out, the usable tokens of the user are those of the
  // login asking
  lemma OnlyTheAskingLoginIsLeft(sys: System, access: Uuid, ids: seq<DeviceId>, x: Uuid)
    requires Inv(sys) && Enabled(sys, SignOutOthers(access, ids)) && access in sys.s.access
    requires Known(sys.h, x) && BirthOf(sys.h, x).user == UserOf(sys.h, access)
    ensures Usable(Apply(sys, SignOutOthers(access, ids)).s, x) <==>
            Usable(sys.s, x) && BirthOf(sys.h, x).login == BirthOf(sys.h, access).login
  {
    var System(s, h) := sys;
    var user := UserOf(h, access);
    RevocationEndsItsLogins(sys, SignOutOthers(access, ids), x);
    LogoutRevokesSession(h, s, access);
    ListedAreLogins(h, s, user);
    if Usable(s, x) {
      DeviceOfToken(h, s, x);
    }
  }

  lemma ListedAreLogins(h: History, s: Store, user: UserId)
    requires Inv(System(s, h))
    ensures LiveDevices(s, user) == set d | d in s.device && h.logins[d] == user
  {
    DevicesOfUsers(h, s);
    LiveDevicesAreLogins(h, s, user);
  }

  // ---- Device sessions ----

  // A login keeps one device session through any rotation and replay, and the session names
  // the newest token
  lemma RefreshKeepsDevice(sys: System, p: Uuid, td: TokenDetails, newId: DeviceId)
    requires Inv(sys) && Enabled(sys, Refresh(p, td, newId)) && Usable(sys.s, p)
    ensures var t := Apply(sys, Refresh(p, td, newId)).s; var d := sys.h.born[p].login;
            && p in sys.s.sid && sys.s.sid[p].device == d
            && td.refresh in t.sid && t.sid[td.refresh].device == d
            && p in t.sid && t.sid[p].device == d
            && d in t.device && t.device[d].refresh == td.refresh
            && SessionOfAccess(t, td.access) == Some(d)
            && newId !in t.device
  {
    var System(s, h) := sys;
    var Birth(user, d, life) := h.born[p];
    hide HistoryOk, PairsOk, PendingOk, OneLivePerLogin, SidsOk, DevicesOk, TokenIndexOk, DeviceIndexOk, TimesOk,
      Usable, RevokeSession, Rotate, SignedOut, Vacant, Reinstalled, SessionOfAccess;
    DeviceOfToken(h, s, p);
    SignedOutLeaves(h, s, p);
    RotateReinstalls(h, s, p, td, newId);
    ReinstalledDevice(h, RevokeSession(s, user, d), user, d, p, life, td, newId);
    HasSid(h, s, p);
  }

  lemma HasSid(h: History, s: Store, p: Uuid)
    requires Issued(h, s) && SidsOk(h, s) && Usable(s, p)
    ensures p in s.sid
  {
  }

  lemma NoUnknownDevice(h: History, s: Store, id: DeviceId)
    requires Inv(System(s, h)) && id !in h.logins
    ensures id !in s.device
  {
    DevicesOfUsers(h, s);
    hide Inv, Usable, Listed;
  }

  lemma ReinstalledDevice(h: History, e: Store, user: UserId, d: DeviceId, p: Uuid, life: Time, td: TokenDetails,
                          newId: DeviceId)
    requires Inv(System(e, h)) && SignedOut(h, e, user, d, p, life) && Fresh(h, td)
    requires d in h.logins && newId !in h.logins
    ensures var t := Reinstalled(e, user, d, p, life, td);
            && td.refresh in t.sid && t.sid[td.refresh].device == d
            && p in t.sid && t.sid[p].device == d
            && d in t.device && t.device[d].refresh == td.refresh
            && SessionOfAccess(t, td.access) == Some(d)
            && newId !in t.device
  {
    NoUnknownDevice(h, e, newId);
    assert p != td.refresh;
    hide Inv, SAdd, SignedOut, Fresh;
  }

  // Revoking the device session ends the token presented exactly when the session names a
  // live token. A rotation that stopped before it carried the session over leaves it naming
  // a retired one, so the token presented still replays.
  lemma TornRotationSurvivesSignOut(h: History, s: Store, p: Uuid, td: TokenDetails, newId: DeviceId, upTo: Progress)
    requires Inv(System(s, h)) && Usable(s, p) && Fresh(h, td)
    ensures var Birth(user, d, _) := h.born[p];
            var torn := RotateUpTo(s, user, p, td, newId, h.now, upTo);
            && d in torn.device && torn.device[d].user == user
            && (Usable(RevokeSession(torn, user, d), p) <==> torn.device[d].refresh !in torn.refresh)
            && (torn.device[d].refresh !in torn.refresh <==> !upTo.Carried?)
  {
    if upTo.Carried? {
      CarriedRotationEnds(h, s, p, td, newId);
    } else {
      UncarriedRotationStays(h, s, p, td, newId, upTo);
    }
  }

  lemma CarriedRotationEnds(h: History, s: Store, p: Uuid, td: TokenDetails, newId: DeviceId)
    requires Inv(System(s, h)) && Usable(s, p) && Fresh(h, td)
    ensures var Birth(user, d, _) := h.born[p];
            var t := Rotate(s, user, p, td, newId, h.now);
            && d in t.device && t.device[d].user == user && t.device[d].refresh in t.refresh
            && !Usable(RevokeSession(t, user, d), p)
  {
    var Birth(user, d, life) := h.born[p];
    var t, h2 := Rotate(s, user, p, td, newId, h.now), Issue(h, user, d, td);
    hide Inv, Usable, RevokeSession, Rotate;
    RotateKeepsInv(h, s, p, td, newId);
    RefreshUsable(h, s, p, td, newId, p);
    IssueKeepsBirth(h, user, d, td, p);
    SignedOutDevice(h2, t, p);
    NamesLiveToken(h2, t, d);
    SignedOutUsable(h2, t, p, p);
  }

  lemma NamesLiveToken(h: History, s: Store, d: DeviceId)
    requires Inv(System(s, h)) && d in s.device
    ensures s.device[d].refresh in s.refresh
  {
    NewestToken(h, s, d);
  }

  lemma IssueKeepsBirth(h: History, user: UserId, d: DeviceId, td: TokenDetails, p: Uuid)
    requires Fresh(h, td) && p in h.born
    ensures p in Issue(h, user, d, td).born && Issue(h, user, d, td).born[p] == h.born[p]
  {
  }

  lemma SignedOutDevice(h: History, s: Store, p: Uuid)
    requires Inv(System(s, h)) && Usable(s, p)
    ensures h.born[p].login in s.device && s.device[h.born[p].login].user == h.born[p].user
  {
    DeviceOfToken(h, s, p);
    hide *;
  }

  lemma RetireKeepsDevices(h: History, s: Store, p: Uuid)
    requires Inv(System(s, h)) && Usable(s, p)
    ensures var Birth(user, d, _) := h.born[p]; var c := Retire(s, user, p).0;
            && c.device == s.device
            && d in s.device && s.device[d].user == user && s.device[d].refresh !in c.refresh
            && s.device[d].refresh in h.born
  {
    hide HistoryOk, PairsOk, PendingOk, OneLivePerLogin, SidsOk, DevicesOk, KeysIndexed, IndexIsKeys, DeviceIndexOk,
      TimesOk, Retire, Ids;
    DeviceOfToken(h, s, p);
    if p in s.refresh {
      LiveTokenFacts(h, s, p);
      RetireLiveFields(s, p);
    } else {
      PendingTokenFacts(h, s, p);
      RetirePendingFields(s, p);
    }
  }

  lemma UncarriedRotationStays(h: History, s: Store, p: Uuid, td: TokenDetails, newId: DeviceId, upTo: Progress)
    requires Inv(System(s, h)) && Usable(s, p) && Fresh(h, td) && !upTo.Carried?
    ensures var Birth(user, d, _) := h.born[p];
            var torn := RotateUpTo(s, user, p, td, newId, h.now, upTo);
            && d in torn.device && torn.device[d].user == user && torn.device[d].refresh !in torn.refresh
            && Usable(RevokeSession(torn, user, d), p)
  {
    RetireKeepsDevices(h, s, p);
    RotatesExactlyUsable(h, s, p, td, newId);
    hide Inv, Retire, SAdd, SRem, Rotate;
  }

  // ---- The per-user set ----

  // It holds exactly the uuids of the user with a live access, live refresh or pending
  // rotation key, but for uuids past their time; and it expires after all of them
  lemma UserSetIsExact(sys: System, user: UserId, x: Uuid)
    requires Inv(sys)
    ensures var System(s, h) := sys;
            && (HasKey(s, x) && KeyOf(s, x).user == user
                ==> x in Ids(s.tokens, user) && KeyOf(s, x).exp <= s.tokens[user].exp)
            && (x in Ids(s.tokens, user) ==> Known(h, x) && BirthOf(h, x).user == user)
            && (x in Ids(s.tokens, user) && h.now < LifeOf(h, x) ==> HasKey(s, x))
  {
    assert x in Ids(sys.s.tokens, user) <==> Listed(sys.s.tokens, user, x);
    hide PairsOk, PendingOk, OneLivePerLogin, SidsOk, DevicesOk, DeviceIndexOk, TimesOk;
  }
}
