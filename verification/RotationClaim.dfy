/**
 Rotations of one refresh token, interleaved command by command. A rotation looks whether
 the token is live, then claims it: a live token by deleting its key and counting what was
 deleted, a retired one by taking its pending record out. The winner writes a new record.
 */
module RotationClaim {
  import opened Collections

  type ClientId = nat

  datatype Pc = Starting | SawLive | SawGone | Claimed | Recorded | Refused | Crashed

  // live: the token has its refresh key; pending: it has its rotation record. won holds the
  // clients whose deletion counted the live key; lost counts the claims that came to nothing
  datatype State = State(live: bool, pending: bool, clients: map<ClientId, Pc>, won: set<ClientId>, lost: nat)

  datatype Step =
    | Look(c: ClientId)    // GET and PTTL
    | Delete(c: ClientId)  // DEL of the token's key
    | Take(c: ClientId)    // GETDEL of the record
    | Write(c: ClientId)   // SET of the new record
    | Crash(c: ClientId)   // the client is not heard of again
    | Revoke               // a revocation deletes the token's keys

  predicate At(st: State, c: ClientId, pc: Pc) {
    c in st.clients && st.clients[c] == pc
  }

  predicate Enabled(st: State, step: Step) {
    match step
    case Look(c) => At(st, c, Starting)
    case Delete(c) => At(st, c, SawLive)
    case Take(c) => At(st, c, SawGone)
    case Write(c) => At(st, c, Claimed)
    case Crash(c) => c in st.clients && !st.clients[c].Recorded? && !st.clients[c].Refused? && !st.clients[c].Crashed?
    case Revoke => true
  }

  function Goto(st: State, c: ClientId, pc: Pc): State {
    st.(clients := st.clients[c := pc])
  }

  function Next(st: State, step: Step): State
    requires Enabled(st, step)
  {
    match step
    case Look(c) => Goto(st, c, if st.live then SawLive else SawGone)
    case Delete(c) =>
      if st.live then Goto(st, c, Claimed).(live := false, won := st.won + {c}) else Goto(st, c, Refused)
    case Take(c) =>
      if st.pending then Goto(st, c, Claimed).(pending := false) else Goto(st, c, Refused)
    case Write(c) => Goto(st, c, Recorded).(pending := true)
    case Crash(c) => Goto(st, c, Crashed).(lost := st.lost + if st.clients[c] == Claimed then 1 else 0)
    case Revoke => st.(live := false, pending := false, lost := st.lost + Free(st))
  }

  predicate Legal(st: State, steps: seq<Step>)
    decreases |steps|
  {
    steps == [] || (Enabled(st, steps[0]) && Legal(Next(st, steps[0]), steps[1..]))
  }

  function Run(st: State, steps: seq<Step>): State
    requires Legal(st, steps)
    decreases |steps|
  {
    if steps == [] then st else Run(Next(st, steps[0]), steps[1..])
  }

  // A live token, and any number of clients about to rotate it
  predicate Initial(st: State) {
    st.live && !st.pending && st.won == {} && st.lost == 0 && forall c | c in st.clients :: st.clients[c] == Starting
  }

  // The claims open to whoever comes first
  function Free(st: State): nat {
    (if st.live then 1 else 0) + (if st.pending then 1 else 0)
  }

  function Holders(st: State): set<ClientId> {
    set c | c in st.clients && st.clients[c] == Claimed
  }

  // There is one claim to the token: free, held by one client, or lost
  ghost predicate Inv(st: State) {
    && Free(st) + |Holders(st)| + st.lost == 1
    && |st.won| <= 1
    && (st.live ==> st.won == {})
  }

  lemma HoldersAfter(st: State, step: Step)
    requires Enabled(st, step)
    ensures var next := Next(st, step);
            match step
            case Delete(c) => Holders(next) == if st.live then Holders(st) + {c} else Holders(st)
            case Take(c) => Holders(next) == if st.pending then Holders(st) + {c} else Holders(st)
            case Write(c) => Holders(next) == Holders(st) - {c}
            case Crash(c) => Holders(next) == Holders(st) - {c}
            case _ => Holders(next) == Holders(st)
  {
  }

  lemma NextKeepsInv(st: State, step: Step)
    requires Inv(st) && Enabled(st, step)
    ensures Inv(Next(st, step))
  {
    HoldersAfter(st, step);
    if step.Write? {
      // the writer is the one holder, so no record stands in its way
      assert step.c in Holders(st);
      assert |Holders(st) - {step.c}| == |Holders(st)| - 1;
    } else if step.Crash? {
      if st.clients[step.c] == Claimed {
        assert step.c in Holders(st);
      } else {
        assert Holders(st) - {step.c} == Holders(st);
      }
    }
  }

  lemma {:induction false} RunKeepsInv(st: State, steps: seq<Step>)
    requires Inv(st) && Legal(st, steps)
    ensures Inv(Run(st, steps))
    decreases |steps|
  {
    if steps != [] {
      NextKeepsInv(st, steps[0]);
      RunKeepsInv(Next(st, steps[0]), steps[1..]);
    }
  }

  // However the commands of any number of rotations interleave, at most one deletion ever
  // claims the live token, and at no point do two clients hold a claim
  lemma AtMostOneClaims(st: State, steps: seq<Step>)
    requires Initial(st) && Legal(st, steps)
    ensures var end := Run(st, steps);
            && |end.won| <= 1
            && (forall c, d | At(end, c, Claimed) && At(end, d, Claimed) :: c == d)
            && (forall c | At(end, c, Claimed) :: !end.live && !end.pending)
  {
    assert Holders(st) == {};
    RunKeepsInv(st, steps);
    var end := Run(st, steps);
    forall c, d | At(end, c, Claimed) && At(end, d, Claimed)
      ensures c == d
    {
      assert {c, d} <= Holders(end);
      if c != d {
        SubsetSize({c, d}, Holders(end));
      }
    }
    forall c | At(end, c, Claimed)
      ensures !end.live && !end.pending
    {
      assert c in Holders(end);
    }
  }

  // What holds while nothing crashes and nothing is revoked: as long as the token is live no
  // client has missed it, and once it is not, one deletion counted it
  ghost predicate Undisturbed(st: State) {
    && Inv(st)
    && st.lost == 0
    && (st.live ==> forall c | c in st.clients :: st.clients[c].Starting? || st.clients[c].SawLive?)
    && (!st.live ==> |st.won| == 1)
  }

  lemma NextStaysUndisturbed(st: State, step: Step)
    requires Undisturbed(st) && Enabled(st, step) && !step.Crash? && !step.Revoke?
    ensures Undisturbed(Next(st, step)) && Next(st, step).clients.Keys == st.clients.Keys
  {
    NextKeepsInv(st, step);
    if step.Delete? && st.live {
      assert Next(st, step).won == {step.c};
    }
    hide Inv;
  }

  lemma {:induction false} RunStaysUndisturbed(st: State, steps: seq<Step>)
    requires Undisturbed(st) && Legal(st, steps)
    requires forall s | s in steps :: !s.Crash? && !s.Revoke?
    ensures Undisturbed(Run(st, steps)) && Run(st, steps).clients.Keys == st.clients.Keys
    decreases |steps|
  {
    if steps != [] {
      assert steps[0] in steps && forall s | s in steps[1..] :: s in steps;
      NextStaysUndisturbed(st, steps[0]);
      RunStaysUndisturbed(Next(st, steps[0]), steps[1..]);
    }
  }

  predicate AllDone(st: State) {
    forall c | c in st.clients :: st.clients[c].Recorded? || st.clients[c].Refused?
  }

  // Without a crash or a revocation the token is never lost: once every client is done,
  // exactly one deletion claimed it and its record is there to be replayed
  lemma TheClaimIsNotLost(st: State, steps: seq<Step>)
    requires Initial(st) && st.clients != map[] && Legal(st, steps)
    requires forall s | s in steps :: !s.Crash? && !s.Revoke?
    requires AllDone(Run(st, steps))
    ensures Run(st, steps).pending && !Run(st, steps).live && |Run(st, steps).won| == 1
  {
    assert Holders(st) == {};
    RunStaysUndisturbed(st, steps);
    var end := Run(st, steps);
    var c :| c in st.clients;
    assert c in end.clients;
    assert Holders(end) == {};
  }
}
