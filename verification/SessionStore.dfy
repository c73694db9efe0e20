/**
 The Redis keys behind the signed-in devices of the backend, and what every repository
 call does to them, as functions from one store to the next.

 A login hands out a pair of tokens: a short-lived access token and a long-lived refresh
 token. A rotation swaps the refresh token for a new pair; until the new one is used, the
 old one may replay the rotation. Eight kinds of key record this, each with its expiry.
 */
module SessionStore {
  import opened Options

  type Uuid = int
  type UserId = int
  type DeviceId = int
  type Time = int

  // auth:at:, auth:rt: and auth:rot: hold the owner and a partner uuid
  datatype Token = Token(user: UserId, partner: Uuid, exp: Time)

  // auth:prev: points a refresh token at the one it replaced
  datatype BackLink = BackLink(previous: Uuid, exp: Time)

  // auth:sid: points a refresh token at its device session
  datatype Sid = Sid(device: DeviceId, exp: Time)

  // auth:device: is the device session itself; refresh is the newest token handed out
  datatype Device = Device(user: UserId, refresh: Uuid, exp: Time)

  // auth:user: and auth:devices: are per-user sets
  datatype Index<T> = Index(ids: set<T>, exp: Time)

  datatype Store = Store(
    access: map<Uuid, Token>,
    refresh: map<Uuid, Token>,
    rot: map<Uuid, Token>,
    prev: map<Uuid, BackLink>,
    sid: map<Uuid, Sid>,
    device: map<DeviceId, Device>,
    tokens: map<UserId, Index<Uuid>>,
    devices: map<UserId, Index<DeviceId>>)

  const EMPTY := Store(map[], map[], map[], map[], map[], map[], map[], map[])

  // A freshly minted pair
  datatype TokenDetails = TokenDetails(access: Uuid, refresh: Uuid, atExpires: Time, rtExpires: Time)

  function Ids<T>(index: map<UserId, Index<T>>, user: UserId): set<T> {
    if user in index then index[user].ids else {}
  }

  // SADD then EXPIRE
  function SAdd<T>(index: map<UserId, Index<T>>, user: UserId, ids: set<T>, exp: Time): map<UserId, Index<T>> {
    index[user := Index(Ids(index, user) + ids, exp)]
  }

  // SREM: a set that loses its last member is gone
  function SRem<T>(index: map<UserId, Index<T>>, user: UserId, ids: set<T>): map<UserId, Index<T>> {
    var rest := Ids(index, user) - ids;
    if rest == {} then index - {user} else index[user := Index(rest, index[user].exp)]
  }

  function CreateAuth(s: Store, user: UserId, td: TokenDetails): Store {
    s.(access := s.access[td.access := Token(user, td.refresh, td.atExpires)],
       refresh := s.refresh[td.refresh := Token(user, td.access, td.rtExpires)],
       tokens := SAdd(s.tokens, user, {td.access, td.refresh}, td.rtExpires))
  }

  function WriteSession(s: Store, user: UserId, id: DeviceId, td: TokenDetails): Store {
    s.(device := s.device[id := Device(user, td.refresh, td.rtExpires)],
       sid := s.sid[td.refresh := Sid(id, td.rtExpires)],
       devices := SAdd(s.devices, user, {id}, td.rtExpires))
  }

  // The device session of the token replaced goes on; a token without one opens one
  function CarrySession(s: Store, user: UserId, presented: Uuid, td: TokenDetails, newId: DeviceId): Store {
    WriteSession(s, user, if presented in s.sid then s.sid[presented].device else newId, td)
  }

  // The service's createSession: a pair and a device session around it
  function CreateSession(s: Store, user: UserId, td: TokenDetails, id: DeviceId): Store {
    WriteSession(CreateAuth(s, user, td), user, id, td)
  }

  function DropPredecessor(s: Store, user: UserId, refresh: Uuid): Store {
    if refresh !in s.prev then s
    else
      var previous := s.prev[refresh].previous;
      s.(prev := s.prev - {refresh},
         rot := s.rot - {previous},
         sid := s.sid - {previous},
         tokens := SRem(s.tokens, user, {previous}))
  }

  function RevokeByRefresh(s: Store, refresh: Uuid): Store {
    if refresh !in s.refresh then s
    else
      var Token(user, access, _) := s.refresh[refresh];
      DropPredecessor(
        s.(refresh := s.refresh - {refresh},
           access := s.access - {access},
           sid := s.sid - {refresh},
           tokens := SRem(s.tokens, user, {refresh, access})),
        user, refresh)
  }

  function RevokeByAccess(s: Store, access: Uuid): Store {
    if access !in s.access then s
    else
      var Token(user, refresh, _) := s.access[access];
      DropPredecessor(
        s.(access := s.access - {access},
           refresh := s.refresh - {refresh},
           sid := s.sid - {refresh},
           tokens := SRem(s.tokens, user, {access, refresh})),
        user, refresh)
  }

  function EndSession(s: Store, user: UserId, id: DeviceId): Store {
    s.(device := s.device - {id}, devices := SRem(s.devices, user, {id}))
  }

  function SessionOfAccess(s: Store, access: Uuid): Option<DeviceId> {
    if access !in s.access then None
    else
      var refresh := s.access[access].partner;
      if refresh in s.sid then Some(s.sid[refresh].device) else None
  }

  // RevokeSessionByAccess
  function Logout(s: Store, access: Uuid): Store {
    match SessionOfAccess(s, access)
    case None => RevokeByAccess(s, access)
    case Some(id) =>
      if access in s.access then EndSession(RevokeByAccess(s, access), s.access[access].user, id) else s
  }

  function RevokeSession(s: Store, user: UserId, id: DeviceId): Store {
    if id !in s.device || s.device[id].user != user then s
    else EndSession(RevokeByRefresh(s, s.device[id].refresh), user, id)
  }

  // retireRefresh: the claim. The time is when the claimed token would have expired. A
  // replay by a foreign user is refused after the record was already taken out.
  function Retire(s: Store, user: UserId, presented: Uuid): (Store, Option<Time>) {
    if presented in s.refresh then
      var live := s.refresh[presented];
      if live.user != user then (s, None)
      else
        var claimed := s.(refresh := s.refresh - {presented},
                          access := s.access - {live.partner},
                          tokens := SRem(s.tokens, user, {live.partner}));
        (DropPredecessor(claimed, user, presented), Some(live.exp))
    else if presented !in s.rot then (s, None)
    else
      var pending := s.rot[presented];
      var claimed := s.(rot := s.rot - {presented});
      if pending.user != user then (claimed, None)
      else
        var unlinked := claimed.(prev := claimed.prev - {pending.partner});
        (RevokeByRefresh(unlinked, pending.partner), Some(pending.exp))
  }

  // The record of a pending rotation, written before the new pair exists
  function Record(s: Store, user: UserId, presented: Uuid, td: TokenDetails, exp: Time): Store {
    s.(rot := s.rot[presented := Token(user, td.refresh, exp)],
       prev := s.prev[td.refresh := BackLink(presented, exp)])
  }

  // Where a rotation may stop: the store refuses the next command, or the answer is lost
  datatype Progress = Recorded | PairStored | Carried

  function RotateUpTo(s: Store, user: UserId, presented: Uuid, td: TokenDetails, newId: DeviceId, now: Time,
                      upTo: Progress): Store {
    var (claimed, life) := Retire(s, user, presented);
    if life.None? then claimed
    else
      var exp := if life.value <= now then td.rtExpires else life.value;
      var recorded := Record(claimed, user, presented, td, exp);
      if upTo.Recorded? then recorded
      else
        var stored := CreateAuth(recorded, user, td);
        if upTo.PairStored? then stored else CarrySession(stored, user, presented, td, newId)
  }

  // RotateSession
  function Rotate(s: Store, user: UserId, presented: Uuid, td: TokenDetails, newId: DeviceId, now: Time): Store {
    RotateUpTo(s, user, presented, td, newId, now, Carried)
  }

  // What RotateSession answers
  predicate Rotates(s: Store, user: UserId, presented: Uuid) {
    Retire(s, user, presented).1.Some?
  }

  // RefreshSessionExists
  predicate Usable(s: Store, refresh: Uuid) {
    refresh in s.refresh || refresh in s.rot
  }

  function RevokeAll(s: Store, user: UserId): Store {
    var uuids := Ids(s.tokens, user);
    s.(access := s.access - uuids,
       refresh := s.refresh - uuids,
       rot := s.rot - uuids,
       prev := s.prev - uuids,
       sid := s.sid - uuids,
       device := s.device - Ids(s.devices, user),
       tokens := s.tokens - {user},
       devices := s.devices - {user})
  }

  predicate DeviceAlive(s: Store, user: UserId, id: DeviceId) {
    id in s.device && s.device[id].user == user && Usable(s, s.device[id].refresh)
  }

  // The sessions ListSessions answers with
  function LiveDevices(s: Store, user: UserId): set<DeviceId> {
    set id | id in Ids(s.devices, user) && DeviceAlive(s, user, id)
  }

  // ListSessions forgets the sessions it finds dead
  function Forget(s: Store, user: UserId): Store {
    var dead := Ids(s.devices, user) - LiveDevices(s, user);
    s.(device := s.device - dead, devices := SRem(s.devices, user, dead))
  }

  // Redis drops every key whose time has come
  function Purge(s: Store, now: Time): Store {
    Store(
      map k | k in s.access && now < s.access[k].exp :: s.access[k],
      map k | k in s.refresh && now < s.refresh[k].exp :: s.refresh[k],
      map k | k in s.rot && now < s.rot[k].exp :: s.rot[k],
      map k | k in s.prev && now < s.prev[k].exp :: s.prev[k],
      map k | k in s.sid && now < s.sid[k].exp :: s.sid[k],
      map k | k in s.device && now < s.device[k].exp :: s.device[k],
      map k | k in s.tokens && now < s.tokens[k].exp :: s.tokens[k],
      map k | k in s.devices && now < s.devices[k].exp :: s.devices[k])
  }
}
