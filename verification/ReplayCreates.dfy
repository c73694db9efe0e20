/**
 Creates of one user that carry the same client id, interleaved statement by statement: each
 looks the client id up, inserts if there is none, and looks again if another insert came
 first. Events and categories are created this way alike. Rows may be deleted meanwhile.
 */
module ReplayCreates {
  type ClientId = string
  type RowId = nat
  type Caller = nat
  type Body = string

  // The rows of the user, by what the unique key (idUser, clientId) and the reader see
  datatype Row = Row(clientId: ClientId, body: Body)

  datatype Pc =
    | Starting
    | Missed                        // the lookup found none
    | Beaten                        // the insert hit the unique key
    | Answered(id: RowId, created: bool)
    | Failed                        // the request was refused, or the row was not found again

  // One key, the bodies its callers send, the table and where each caller stands
  datatype State = State(key: ClientId, bodies: map<Caller, Body>, rows: map<RowId, Row>, callers: map<Caller, Pc>)

  datatype Step =
    | LookUp(c: Caller)
    | Refuse(c: Caller)               // the checks between lookup and insert fail
    | Insert(c: Caller, id: RowId)
    | LookAgain(c: Caller)
    | InsertOther(id: RowId, row: Row)  // any create with another client id
    | Delete(id: RowId)

  predicate At(st: State, c: Caller, pc: Pc) {
    c in st.callers && st.callers[c] == pc
  }

  predicate IsKeyRow(st: State, id: RowId) {
    id in st.rows && st.rows[id].clientId == st.key
  }

  ghost predicate HasRow(st: State) {
    exists id :: IsKeyRow(st, id)
  }

  predicate Enabled(st: State, step: Step) {
    match step
    case LookUp(c) => At(st, c, Starting)
    case Refuse(c) => At(st, c, Missed)
    case Insert(c, id) => At(st, c, Missed) && c in st.bodies && id !in st.rows
    case LookAgain(c) => At(st, c, Beaten)
    case InsertOther(id, row) => id !in st.rows && row.clientId != st.key
    case Delete(id) => id in st.rows
  }

  function Goto(st: State, c: Caller, pc: Pc): State {
    st.(callers := st.callers[c := pc])
  }

  ghost predicate Next(st: State, step: Step, next: State) {
    match step
    case LookUp(c) =>
      if HasRow(st) then exists id :: IsKeyRow(st, id) && next == Goto(st, c, Answered(id, false))
      else next == Goto(st, c, Missed)
    case Refuse(c) => next == Goto(st, c, Failed)
    case Insert(c, id) =>
      if HasRow(st) then next == Goto(st, c, Beaten)
      else c in st.bodies && next == Goto(st, c, Answered(id, true)).(rows := st.rows[id := Row(st.key, st.bodies[c])])
    case LookAgain(c) =>
      if HasRow(st) then exists id :: IsKeyRow(st, id) && next == Goto(st, c, Answered(id, false))
      else next == Goto(st, c, Failed)
    case InsertOther(id, row) => next == st.(rows := st.rows[id := row])
    case Delete(id) => next == st.(rows := st.rows - {id})
  }

  // A run visits states, each a step after the one before it
  ghost predicate IsRun(states: seq<State>, steps: seq<Step>) {
    && |states| == |steps| + 1
    && forall i | 0 <= i < |steps| :: Enabled(states[i], steps[i]) && Next(states[i], steps[i], states[i + 1])
  }

  // The step deletes the row of the client id
  predicate Deletes(st: State, step: Step) {
    step.Delete? && IsKeyRow(st, step.id)
  }

  // No step from m up to n does
  predicate Undeleted(states: seq<State>, steps: seq<Step>, m: nat, n: nat)
    requires |states| == |steps| + 1 && m <= n <= |steps|
  {
    forall i | m <= i < n :: !Deletes(states[i], steps[i])
  }

  // No row yet, and every caller about to look
  predicate Initial(st: State) {
    && (forall id | id in st.rows :: st.rows[id].clientId != st.key)
    && (forall c | c in st.callers :: st.callers[c] == Starting && c in st.bodies)
  }

  predicate Created(st: State, c: Caller) {
    c in st.callers && st.callers[c].Answered? && st.callers[c].created
  }

  ghost predicate Inv(st: State) {
    && (forall a, b | IsKeyRow(st, a) && IsKeyRow(st, b) :: a == b)
    && (forall c | c in st.callers && st.callers[c].Answered? :: IsKeyRow(st, st.callers[c].id))
    && (forall c | At(st, c, Beaten) :: HasRow(st))
    && (forall c, d | Created(st, c) && Created(st, d) :: c == d)
    && (forall id | IsKeyRow(st, id) :: exists c :: Created(st, c))
    && (forall c | Created(st, c) :: c in st.bodies && st.rows[st.callers[c].id].body == st.bodies[c])
    && st.callers.Keys <= st.bodies.Keys
  }

  lemma NewRow(st: State, c: Caller, id: RowId, next: State)
    requires Inv(st) && Enabled(st, Insert(c, id)) && Next(st, Insert(c, id), next) && !HasRow(st)
    ensures Inv(next)
  {
    assert IsKeyRow(next, id) && Created(next, c);
    forall other
      ensures IsKeyRow(next, other) <==> other == id
    {
      assert !IsKeyRow(st, other);
    }
    forall d | d in st.callers
      ensures !st.callers[d].Answered?
    {
    }
  }

  lemma OtherRow(st: State, step: Step, next: State)
    requires Inv(st) && Enabled(st, step) && Next(st, step, next)
    requires step.InsertOther? || (step.Delete? && !Deletes(st, step))
    ensures Inv(next)
  {
    forall id
      ensures IsKeyRow(next, id) <==> IsKeyRow(st, id)
    {
    }
    forall c
      ensures Created(next, c) <==> Created(st, c)
      ensures At(next, c, Beaten) <==> At(st, c, Beaten)
    {
    }
    SameRow(st, next);
  }

  lemma SameRow(st: State, next: State)
    requires forall id :: IsKeyRow(next, id) <==> IsKeyRow(st, id)
    ensures HasRow(st) <==> HasRow(next)
  {
    hide IsKeyRow;
  }

  // Only the caller moves
  lemma CallerMoves(st: State, c: Caller, pc: Pc)
    requires Inv(st) && c in st.callers && !st.callers[c].Answered?
    requires pc.Answered? ==> IsKeyRow(st, pc.id) && !pc.created
    requires pc.Beaten? ==> HasRow(st)
    ensures Inv(Goto(st, c, pc))
  {
    var next := Goto(st, c, pc);
    forall id
      ensures IsKeyRow(next, id) <==> IsKeyRow(st, id)
    {
    }
    forall d
      ensures Created(next, d) <==> Created(st, d)
      ensures At(next, d, Beaten) ==> At(st, d, Beaten) || pc.Beaten?
    {
    }
    SameRow(st, next);
    hide HasRow;
  }

  lemma NextKeepsInv(st: State, step: Step, next: State)
    requires Inv(st) && Enabled(st, step) && Next(st, step, next) && !Deletes(st, step)
    ensures Inv(next) && next.key == st.key && next.bodies == st.bodies && next.callers.Keys == st.callers.Keys
  {
    match step
    case LookUp(c) =>
      hide Inv;
      CallerMoves(st, c, next.callers[c]);
    case Refuse(c) =>
      hide Inv;
      CallerMoves(st, c, Failed);
    case Insert(c, id) =>
      hide Inv;
      if HasRow(st) {
        CallerMoves(st, c, Beaten);
      } else {
        NewRow(st, c, id, next);
      }
    case LookAgain(c) =>
      hide Inv;
      CallerMoves(st, c, next.callers[c]);
    case _ =>
      OtherRow(st, step, next);
  }

  lemma {:induction false} RunKeepsInv(states: seq<State>, steps: seq<Step>, n: nat)
    requires IsRun(states, steps) && n < |states| && Initial(states[0]) && Undeleted(states, steps, 0, n)
    ensures Inv(states[n]) && states[n].key == states[0].key && states[n].bodies == states[0].bodies
            && states[n].callers.Keys == states[0].callers.Keys
  {
    if n > 0 {
      RunKeepsInv(states, steps, n - 1);
      assert Enabled(states[n - 1], steps[n - 1]) && Next(states[n - 1], steps[n - 1], states[n]);
      hide IsRun, Initial, Inv, Next, Enabled;
      NextKeepsInv(states[n - 1], steps[n - 1], states[n]);
    }
  }

  // What one client id can come to: no row, or one row that every answered caller was given
  // and exactly one of them was told it created, with the body that caller sent
  ghost predicate OneCreate(st: State) {
    && (forall a, b | IsKeyRow(st, a) && IsKeyRow(st, b) :: a == b)
    && (forall c | c in st.callers && st.callers[c].Answered? :: IsKeyRow(st, st.callers[c].id))
    && (forall id | IsKeyRow(st, id) ::
          exists c :: Created(st, c) && st.callers[c].id == id && c in st.bodies && st.rows[id].body == st.bodies[c]
                      && forall d | Created(st, d) :: d == c)
  }

  // However the statements of any number of creates interleave, with any other creates and
  // deletions, as long as the row itself is not deleted
  lemma ReplaysCreateOnce(states: seq<State>, steps: seq<Step>)
    requires IsRun(states, steps) && Initial(states[0]) && Undeleted(states, steps, 0, |steps|)
    ensures OneCreate(states[|steps|])
  {
    RunKeepsInv(states, steps, |steps|);
    var st := states[|steps|];
    hide IsRun, Initial;
    forall id | IsKeyRow(st, id)
      ensures exists c :: Created(st, c) && st.callers[c].id == id && c in st.bodies && st.rows[id].body == st.bodies[c]
                          && forall d | Created(st, d) :: d == c
    {
      var c :| Created(st, c);
    }
  }

  // The body of the first insert stands until the row is deleted: no other step touches it
  lemma {:induction false} FirstBodyStands(states: seq<State>, steps: seq<Step>, m: nat, n: nat, id: RowId)
    requires IsRun(states, steps) && m <= n < |states| && id in states[m].rows
    requires forall i | m <= i < n :: steps[i] != Delete(id)
    ensures id in states[n].rows && states[n].rows[id] == states[m].rows[id]
    decreases n - m
  {
    if m < n {
      assert Enabled(states[n - 1], steps[n - 1]) && Next(states[n - 1], steps[n - 1], states[n]);
      FirstBodyStands(states, steps, m, n - 1, id);
    }
  }

  lemma {:induction false} RunKeepsKey(states: seq<State>, steps: seq<Step>, m: nat, n: nat)
    requires IsRun(states, steps) && m <= n < |states|
    ensures states[n].key == states[m].key
    decreases n - m
  {
    if m < n {
      assert Next(states[n - 1], steps[n - 1], states[n]);
      RunKeepsKey(states, steps, m, n - 1);
    }
  }

  lemma RowStays(states: seq<State>, steps: seq<Step>, m: nat, n: nat)
    requires IsRun(states, steps) && m <= n < |states| && HasRow(states[m]) && Undeleted(states, steps, m, n)
    ensures HasRow(states[n])
    decreases n - m
  {
    var id :| IsKeyRow(states[m], id);
    if m < n {
      assert Enabled(states[m], steps[m]) && Next(states[m], steps[m], states[m + 1]) && !Deletes(states[m], steps[m]);
      assert IsKeyRow(states[m + 1], id);
      hide Next, Enabled, IsKeyRow;
      RowStays(states, steps, m + 1, n);
    }
  }

  // A create that was beaten to the insert finds the winner's row when it looks again, unless
  // that row was deleted in between; then it is told of no row exactly when there is none again
  lemma LookingAgainFinds(states: seq<State>, steps: seq<Step>, m: nat, n: nat)
    requires IsRun(states, steps) && m < n < |steps|
    requires steps[m].Insert? && At(states[m + 1], steps[m].c, Beaten) && steps[n] == LookAgain(steps[m].c)
    ensures var c := steps[m].c;
            && c in states[n + 1].callers
            && (states[n + 1].callers[c].Answered? <==> HasRow(states[n]))
            && (states[n + 1].callers[c].Answered? ==>
                  IsKeyRow(states[n], states[n + 1].callers[c].id) && !states[n + 1].callers[c].created)
            && (!states[n + 1].callers[c].Answered? ==>
                  states[n + 1].callers[c] == Failed && !Undeleted(states, steps, m + 1, n))
  {
    assert Enabled(states[m], steps[m]) && Next(states[m], steps[m], states[m + 1]);
    assert Enabled(states[n], steps[n]) && Next(states[n], steps[n], states[n + 1]);
    BeatenByRow(states[m], steps[m], states[m + 1]);
    if Undeleted(states, steps, m + 1, n) {
      RowStays(states, steps, m + 1, n);
    }
    hide Undeleted, IsRun;
  }

  lemma BeatenByRow(st: State, step: Step, next: State)
    requires Enabled(st, step) && Next(st, step, next) && step.Insert? && At(next, step.c, Beaten)
    ensures HasRow(next)
  {
    assert HasRow(st);
    SameRow(st, next);
  }

  // ---- Each deletion makes room for one more create ----

  function Creators(st: State): set<Caller> {
    set c | c in st.callers && Created(st, c)
  }

  function Deletions(states: seq<State>, steps: seq<Step>, n: nat): nat
    requires |states| == |steps| + 1 && n <= |steps|
  {
    if n == 0 then 0
    else Deletions(states, steps, n - 1) + if Deletes(states[n - 1], steps[n - 1]) then 1 else 0
  }

  ghost predicate OneRow(st: State) {
    forall a, b | IsKeyRow(st, a) && IsKeyRow(st, b) :: a == b
  }

  // Of creates and deletions of the row, and of standing rows
  ghost predicate Counted(st: State, step: Step, next: State) {
    && OneRow(next)
    && |Creators(next)| + (if HasRow(st) then 1 else 0)
       == |Creators(st)| + (if HasRow(next) then 1 else 0) + if Deletes(st, step) then 1 else 0
  }

  lemma SameCounts(st: State, step: Step, next: State)
    requires OneRow(st) && !Deletes(st, step)
    requires Creators(next) == Creators(st) && forall id :: IsKeyRow(next, id) <==> IsKeyRow(st, id)
    ensures Counted(st, step, next)
  {
    SameRow(st, next);
    hide Creators, IsKeyRow, Deletes, HasRow;
  }

  lemma InsertCounts(st: State, c: Caller, id: RowId, next: State)
    requires Enabled(st, Insert(c, id)) && Next(st, Insert(c, id), next) && OneRow(st)
    ensures Counted(st, Insert(c, id), next)
  {
    if HasRow(st) {
      SameCounts(st, Insert(c, id), next);
    } else {
      assert forall x | IsKeyRow(next, x) :: x == id || IsKeyRow(st, x);
      assert IsKeyRow(next, id);
      assert Creators(next) == Creators(st) + {c} && c !in Creators(st);
    }
  }

  lemma DeleteCounts(st: State, id: RowId, next: State)
    requires Enabled(st, Delete(id)) && Next(st, Delete(id), next) && OneRow(st)
    ensures Counted(st, Delete(id), next)
  {
    assert Creators(next) == Creators(st);
    assert forall x :: IsKeyRow(next, x) <==> IsKeyRow(st, x) && x != id;
    if !Deletes(st, Delete(id)) {
      SameCounts(st, Delete(id), next);
    }
  }

  lemma NextCounts(st: State, step: Step, next: State)
    requires Enabled(st, step) && Next(st, step, next) && OneRow(st)
    ensures Counted(st, step, next)
  {
    hide OneRow, Counted, HasRow;
    match step
    case Insert(c, id) => InsertCounts(st, c, id, next);
    case Delete(id) => DeleteCounts(st, id, next);
    case _ => SameCounts(st, step, next);
  }

  // At any time of any run there is at most one row of the client id, and the callers told that
  // they created it are as many as its deletions, and one more while it stands
  lemma {:induction false} CreatesAreDeletionsAndOne(states: seq<State>, steps: seq<Step>, n: nat)
    requires IsRun(states, steps) && Initial(states[0]) && n < |states|
    ensures OneRow(states[n])
    ensures |Creators(states[n])| == Deletions(states, steps, n) + if HasRow(states[n]) then 1 else 0
  {
    if n == 0 {
      assert Creators(states[0]) == {};
      assert forall id :: !IsKeyRow(states[0], id);
    } else {
      CreatesAreDeletionsAndOne(states, steps, n - 1);
      assert Enabled(states[n - 1], steps[n - 1]) && Next(states[n - 1], steps[n - 1], states[n]);
      hide IsRun, Initial, Next, Enabled, Deletes, OneRow, Creators, HasRow;
      NextCounts(states[n - 1], steps[n - 1], states[n]);
    }
  }
}
