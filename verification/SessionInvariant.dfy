/**
 The invariant that couples all eight kinds of session key, whatever mix of logins,
 refreshes, logouts, revocations, listings and expiries led to the store.
 */
module SessionInvariant {
  import opened SessionStore

  // What is known of an issued refresh token for ever: its owner, the login it descends
  // from (named after the device session that login opened) and when it expires.
  datatype Birth = Birth(user: UserId, login: DeviceId, life: Time)

  // An issued access token: the refresh token of its pair, and when it expires
  datatype Mate = Mate(refresh: Uuid, life: Time)

  datatype History = History(
    now: Time,
    latest: Time, // the latest expiry handed out
    born: map<Uuid, Birth>,
    mate: map<Uuid, Mate>,
    logins: map<DeviceId, UserId>)

  datatype System = System(s: Store, h: History)

  const FRESH := System(EMPTY, History(0, 0, map[], map[], map[]))

  // ---- The invariant ----

  ghost predicate HistoryOk(h: History) {
    && (forall a | a in h.mate :: a !in h.born)
    && (forall a | a in h.mate :: h.mate[a].refresh in h.born && h.mate[a].life <= h.born[h.mate[a].refresh].life)
    && (forall r | r in h.born ::
          h.born[r].life <= h.latest && h.born[r].login in h.logins && h.logins[h.born[r].login] == h.born[r].user)
  }

  // Every key belongs to a token that was handed out
  ghost predicate Issued(h: History, s: Store) {
    && (forall a | a in s.access :: a in h.mate)
    && (forall r | r in s.refresh :: r in h.born)
    && (forall p | p in s.rot :: p in h.born)
    && (forall n | n in s.prev :: n in h.born)
    && (forall r | r in s.sid :: r in h.born)
  }

  // A live access token and its live refresh token point at each other
  ghost predicate PairsOk(h: History, s: Store)
    requires Issued(h, s)
  {
    && (forall a | a in s.access ::
          && s.access[a].partner == h.mate[a].refresh
          && s.access[a].exp == h.mate[a].life
          && h.mate[a].refresh in s.refresh
          && s.refresh[h.mate[a].refresh].partner == a
          && s.access[a].user == s.refresh[h.mate[a].refresh].user)
    && (forall r | r in s.refresh ::
          && s.refresh[r].user == h.born[r].user
          && s.refresh[r].exp == h.born[r].life
          && s.refresh[r].partner in h.mate
          && h.mate[s.refresh[r].partner].refresh == r)
  }

  // rot and prev are inverse maps; a pending token is the direct predecessor of a live
  // token of the same login and is not live itself
  ghost predicate PendingOk(h: History, s: Store)
    requires Issued(h, s)
  {
    && (forall p | p in s.rot ::
          && p !in s.refresh
          && s.rot[p].user == h.born[p].user
          && s.rot[p].exp == h.born[p].life
          && s.rot[p].partner in s.refresh
          && h.born[s.rot[p].partner].login == h.born[p].login
          && h.born[p].life <= h.born[s.rot[p].partner].life
          && s.rot[p].partner in s.prev
          && s.prev[s.rot[p].partner] == BackLink(p, s.rot[p].exp))
    && (forall n | n in s.prev :: s.prev[n].previous in s.rot && s.rot[s.prev[n].previous].partner == n)
  }

  ghost predicate OneLivePerLogin(h: History, s: Store)
    requires Issued(h, s)
  {
    forall r, q | r in s.refresh && q in s.refresh && h.born[r].login == h.born[q].login :: r == q
  }

  // Exactly the usable tokens point at a device session: the one their login opened
  ghost predicate SidsOk(h: History, s: Store)
    requires Issued(h, s)
  {
    && (forall r :: r in s.sid <==> r in s.refresh || r in s.rot)
    && (forall r | r in s.sid :: s.sid[r] == Sid(h.born[r].login, h.born[r].life))
  }

  // A device session stands exactly while its login has a live token, and names it
  ghost predicate DevicesOk(h: History, s: Store)
    requires Issued(h, s)
  {
    && (forall r | r in s.refresh ::
          h.born[r].login in s.device && s.device[h.born[r].login] == Device(h.born[r].user, r, h.born[r].life))
    && (forall d | d in s.device :: s.device[d].refresh in s.refresh && h.born[s.device[d].refresh].login == d)
  }

  predicate Listed<T>(index: map<UserId, Index<T>>, user: UserId, id: T) {
    user in index && id in index[user].ids
  }

  predicate Indexed<T>(index: map<UserId, Index<T>>, user: UserId, id: T, exp: Time) {
    Listed(index, user, id) && exp <= index[user].exp
  }

  predicate Known(h: History, x: Uuid) {
    x in h.born || (x in h.mate && h.mate[x].refresh in h.born)
  }

  // The birth behind an issued uuid: its own, or that of its refresh token
  function BirthOf(h: History, x: Uuid): Birth
    requires Known(h, x)
  {
    if x in h.born then h.born[x] else h.born[h.mate[x].refresh]
  }

  function LifeOf(h: History, x: Uuid): Time
    requires Known(h, x)
  {
    if x in h.born then h.born[x].life else h.mate[x].life
  }

  predicate HasKey(s: Store, x: Uuid) {
    x in s.access || x in s.refresh || x in s.rot
  }

  function KeyOf(s: Store, x: Uuid): Token
    requires HasKey(s, x)
  {
    if x in s.access then s.access[x] else if x in s.refresh then s.refresh[x] else s.rot[x]
  }

  // The per-user set holds every uuid with a key, and outlives that key
  ghost predicate KeysIndexed(s: Store) {
    forall x | HasKey(s, x) :: Indexed(s.tokens, KeyOf(s, x).user, x, KeyOf(s, x).exp)
  }

  // It holds nothing else but uuids of that user whose time has passed
  ghost predicate IndexIsKeys(h: History, s: Store) {
    forall u, x | Listed(s.tokens, u, x) ::
      Known(h, x) && BirthOf(h, x).user == u && (HasKey(s, x) || LifeOf(h, x) <= h.now)
  }

  ghost predicate TokenIndexOk(h: History, s: Store) {
    KeysIndexed(s) && IndexIsKeys(h, s)
  }

  ghost predicate DeviceIndexOk(h: History, s: Store) {
    && (forall d | d in s.device :: Indexed(s.devices, s.device[d].user, d, s.device[d].exp))
    && (forall u, d | Listed(s.devices, u, d) :: d in h.logins && h.logins[d] == u)
  }

  // Nothing outlives its time, and no set is empty
  ghost predicate TimesOk(h: History, s: Store) {
    && (forall x | x in s.access :: h.now < s.access[x].exp)
    && (forall x | x in s.refresh :: h.now < s.refresh[x].exp)
    && (forall x | x in s.rot :: h.now < s.rot[x].exp)
    && (forall u | u in s.tokens :: h.now < s.tokens[u].exp <= h.latest && s.tokens[u].ids != {})
    && (forall u | u in s.devices :: h.now < s.devices[u].exp <= h.latest && s.devices[u].ids != {})
  }

  ghost predicate Coupled(h: History, s: Store) {
    && HistoryOk(h)
    && Issued(h, s)
    && PairsOk(h, s)
    && PendingOk(h, s)
    && OneLivePerLogin(h, s)
    && SidsOk(h, s)
    && DevicesOk(h, s)
  }

  ghost predicate Inv(sys: System) {
    && Coupled(sys.h, sys.s)
    && TokenIndexOk(sys.h, sys.s)
    && DeviceIndexOk(sys.h, sys.s)
    && TimesOk(sys.h, sys.s)
  }
}
