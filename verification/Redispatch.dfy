/**
 The redispatch guard of backend/app/orch/main_session.py inside the room's turns, while gated
 transactions and decisions go on: an approved action is redispatched a bounded number of times.
 */
module Redispatch {
  import opened Wrappers
  import opened Machines
  import opened Room
  import opened Payload
  import opened Approvals
  import opened Sums
  import Verdict
  import RoomMachine
  import GateMachine
  import GateSafety
  import GateRuns

  const GATED_ROLE := "operations"

  /** Where the guard of a turn stands; Peeked carries the attempts it read. */
  datatype Guard = Fresh | Peeked(key: Key, attempts: nat) | Over

  datatype Turn = Turn(conv: ConvId, e: Event, guard: Guard)

  type TurnId = nat

  datatype State = State(
    gate: GateMachine.State,
    rooms: map<ConvId, RoomMachine.State>,
    turns: map<TurnId, Turn>,
    marked: set<Key>,
    fires: map<Key, nat>)

  datatype Label =
    | Gate(gl: GateMachine.Label)
    | InRoom(conv: ConvId, rl: RoomMachine.Label, turn: TurnId)
    | Peek(turn: TurnId, key: Key)
    | Skip(turn: TurnId)
    | Fire(turn: TurnId)

  function RoomOf(s: State, c: ConvId): RoomMachine.State {
    if c in s.rooms then s.rooms[c] else RoomMachine.INIT
  }

  function Fires(s: State, k: Key): nat {
    if k in s.fires then s.fires[k] else 0
  }

  /** The event whose turn starts under a room label, if one does. */
  function Starts(r: RoomMachine.State, l: RoomMachine.Label): Option<Event> {
    if (l.EnterArrival? || l.EnterWake?) && !r.slot.busy then Some(l.e) else None
  }

  function RoomStep(s: State, c: ConvId, l: RoomMachine.Label, turn: TurnId): Option<State> {
    var r := RoomOf(s, c);
    var next := RoomMachine.Next(r, l);
    if next.None? then None
    else
      var t := s.(rooms := s.rooms[c := next.value]);
      if l.Leave? then
        if turn in s.turns && s.turns[turn].conv == c && s.turns[turn].e == l.e
        then Some(t.(turns := s.turns - {turn})) else None
      else if Starts(r, l).Some? then
        if turn in s.turns then None else Some(t.(turns := s.turns[turn := Turn(c, l.e, Fresh)]))
      else Some(t)
  }

  function SetGuard(s: State, turn: TurnId, g: Guard): State
    requires turn in s.turns
  {
    s.(turns := s.turns[turn := s.turns[turn].(guard := g)])
  }

  /** Marking or claiming, whichever the peeked attempts call for. */
  function FireLabel(k: Key, attempts: nat): GateMachine.Label {
    if attempts >= MAX_EXEC_ATTEMPTS then GateMachine.MarkFailed(k) else GateMachine.ClaimAttempt(k)
  }

  function Next(s: State, l: Label): Option<State> {
    match l
    case Gate(gl) =>
      if gl.ClaimAttempt? || gl.MarkFailed? then None
      else
        var g := GateMachine.Next(s.gate, gl);
        if g.Some? then Some(s.(gate := g.value)) else None
    case InRoom(c, rl, turn) => RoomStep(s, c, rl, turn)
    case Peek(turn, k) =>
      if turn in s.turns && s.turns[turn].guard == Fresh && s.turns[turn].e.IsDone()
         && s.turns[turn].e.role == Some(GATED_ROLE) && IsGrant(s.gate.db, s.turns[turn].conv, k)
      then Some(SetGuard(s, turn, Peeked(k, s.gate.db.rows[k].attempts)))
      else None
    case Skip(turn) =>
      if turn in s.turns && s.turns[turn].guard == Fresh then Some(SetGuard(s, turn, Over)) else None
    case Fire(turn) =>
      if turn in s.turns && s.turns[turn].guard.Peeked? then
        var k, a := s.turns[turn].guard.key, s.turns[turn].guard.attempts;
        var g := GateMachine.Next(s.gate, FireLabel(k, a));
        if g.None? then None
        else
          Some(SetGuard(s, turn, Over).(
            gate := g.value,
            marked := if a >= MAX_EXEC_ATTEMPTS then s.marked + {k} else s.marked,
            fires := s.fires[k := Fires(s, k) + 1]))
      else None
  }

  predicate Initial(s: State) {
    GateMachine.Initial(s.gate) && s.rooms == map[] && s.turns == map[] && s.marked == {} && s.fires == map[]
  }

  // ------------------------------------------------------------ what every run keeps

  function TurnsOf(turns: map<TurnId, Turn>, c: ConvId): set<TurnId> {
    set t | t in turns && turns[t].conv == c
  }

  /** Every room is safe and has as many turns as its running events. */
  ghost predicate RoomsOk(s: State) {
    forall c :: RoomMachine.Inv(RoomOf(s, c)) && |TurnsOf(s.turns, c)| == |RoomOf(s, c).running|
  }

  /** A peeked grant still has the attempts that were read, and was not marked before. */
  predicate GuardOk(rows: map<Key, Row>, marked: set<Key>, t: Turn) {
    t.guard.Peeked? ==>
      && t.guard.key.conv == t.conv
      && t.guard.key in rows
      && rows[t.guard.key].status != Pending
      && rows[t.guard.key].attempts == t.guard.attempts
      && t.guard.key !in marked
  }

  ghost predicate GuardsOk(s: State) {
    forall t :: t in s.turns ==> GuardOk(s.gate.db.rows, s.marked, s.turns[t])
  }

  /** The fires of a grant are its attempts and at most one marking, after which it is closed for good. */
  predicate RowBounded(s: State, k: Key) {
    && (k in s.gate.db.rows ==> s.gate.db.rows[k].attempts <= MAX_EXEC_ATTEMPTS)
    && (k in s.marked ==> k in s.gate.db.rows
                          && s.gate.db.rows[k].status != Pending && s.gate.db.rows[k].status != Approved)
    && Fires(s, k) == (if k in s.gate.db.rows then s.gate.db.rows[k].attempts else 0) + (if k in s.marked then 1 else 0)
  }

  ghost predicate RowsBounded(s: State) {
    forall k :: RowBounded(s, k)
  }

  ghost predicate Inv(s: State) {
    GateSafety.Inv(s.gate) && RoomsOk(s) && GuardsOk(s) && RowsBounded(s)
  }

  /** Mutual exclusion of the room: two turns of one conversation are the same turn. */
  lemma OneTurn(s: State, t1: TurnId, t2: TurnId)
    requires RoomsOk(s) && t1 in s.turns && t2 in s.turns && s.turns[t1].conv == s.turns[t2].conv
    ensures t1 == t2
  {
    var c := s.turns[t1].conv;
    var ts := TurnsOf(s.turns, c);
    assert RoomMachine.Inv(RoomOf(s, c)) && |ts| == |RoomOf(s, c).running|;
    if t1 != t2 {
      assert {t1, t2} <= ts;
      SubsetSize({t1, t2}, ts);
    }
  }

  // ------------------------------------------------------------ gate steps

  /** How the attempts of the ledger may change: a row keeps them, a new row starts at zero. */
  ghost predicate AttemptsStay(a: Db, b: Db) {
    && (forall k :: k in a.rows ==> k in b.rows && b.rows[k].attempts == a.rows[k].attempts)
    && (forall k :: k in b.rows && k !in a.rows ==> b.rows[k].attempts == 0)
  }

  lemma WrittenAttempts(s: GateMachine.State, sid: GateMachine.Sid, w: GateMachine.Write)
    requires GateSafety.Inv(s) && sid in s.sessions && s.sessions[sid].pc == GateMachine.CommitWrite(w)
    ensures AttemptsStay(s.db, GateMachine.Written(s.db, s.sessions[sid].key, s.sessions[sid].req.args, w))
  {
    hide GateSafety.TablesOk, GateSafety.RequestsOk, GateSafety.LocksOk;
    assert GateSafety.Fits(GateMachine.ViewOf(s, sid));
  }

  lemma AttemptsStaySame(db: Db)
    ensures AttemptsStay(db, db)
  {
  }

  lemma SessionAttempts(s: GateMachine.State, l: GateMachine.Label)
    requires GateMachine.InSession(l) && GateSafety.Inv(s) && GateMachine.SessionStep(s, l).Some?
    ensures AttemptsStay(s.db, GateMachine.SessionStep(s, l).value.db)
  {
    hide GateSafety.Inv, Verdict.GatedDecision, GateMachine.ReadingOf, GateMachine.Written, AttemptsStay;
    AttemptsStaySame(s.db);
    if GateMachine.MoveOf(s, l).value.Publish? {
      WrittenAttempts(s, l.sid, s.sessions[l.sid].pc.w);
    }
  }

  lemma GateAttempts(s: GateMachine.State, l: GateMachine.Label)
    requires GateSafety.Inv(s) && GateMachine.Next(s, l).Some? && !l.ClaimAttempt?
    ensures AttemptsStay(s.db, GateMachine.Next(s, l).value.db)
  {
    hide GateSafety.Inv, GateMachine.SessionStep;
    if GateMachine.InSession(l) {
      SessionAttempts(s, l);
    }
  }

  lemma GateKeeps(s: State, gl: GateMachine.Label)
    requires Inv(s) && Next(s, Gate(gl)).Some?
    ensures Inv(Next(s, Gate(gl)).value)
  {
    hide GateSafety.Inv, RoomsOk, GateMachine.Next;
    GateSafety.StepKeeps(s.gate, gl);
    GateSafety.StepMoves(s.gate, gl);
    GateAttempts(s.gate, gl);
    var t := Next(s, Gate(gl)).value;
    RoomsStay(s, t);
    forall k ensures RowBounded(t, k) {
      assert RowBounded(s, k);
      assert k in s.gate.db.rows ==> RowMoves(s.gate.db.rows[k], t.gate.db.rows[k]);
    }
    forall o | o in t.turns ensures GuardOk(t.gate.db.rows, t.marked, t.turns[o]) {
      assert GuardOk(s.gate.db.rows, s.marked, s.turns[o]);
    }
  }

  lemma RoomsStay(s: State, t: State)
    requires RoomsOk(s) && t.rooms == s.rooms
    requires t.turns.Keys == s.turns.Keys && forall o :: o in s.turns ==> t.turns[o].conv == s.turns[o].conv
    ensures RoomsOk(t)
  {
    forall c ensures RoomMachine.Inv(RoomOf(t, c)) && |TurnsOf(t.turns, c)| == |RoomOf(t, c).running| {
      assert RoomOf(t, c) == RoomOf(s, c);
      assert TurnsOf(t.turns, c) == TurnsOf(s.turns, c);
    }
  }

  // ------------------------------------------------------------ room steps

  lemma RunningAfter(r: RoomMachine.State, l: RoomMachine.Label)
    requires RoomMachine.Inv(r) && RoomMachine.Next(r, l).Some?
    ensures var n := |RoomMachine.Next(r, l).value.running|;
      n == if l.Leave? then |r.running| - 1 else if Starts(r, l).Some? then |r.running| + 1 else |r.running|
  {
    hide RoomMachine.Inv, DedupLast, Trim;
    if l.Leave? {
      assert |r.running - multiset{l.e}| == |r.running| - 1;
    }
  }

  lemma RoomStepRooms(s: State, c: ConvId, l: RoomMachine.Label, turn: TurnId)
    requires RoomsOk(s) && RoomStep(s, c, l, turn).Some?
    ensures RoomsOk(RoomStep(s, c, l, turn).value)
  {
    hide RoomMachine.Inv, RoomMachine.Next;
    var t := RoomStep(s, c, l, turn).value;
    var r := RoomOf(s, c);
    RoomMachine.StepKeeps(r, l);
    RunningAfter(r, l);
    forall d ensures RoomMachine.Inv(RoomOf(t, d)) && |TurnsOf(t.turns, d)| == |RoomOf(t, d).running| {
      if d != c {
        assert TurnsOf(t.turns, d) == TurnsOf(s.turns, d);
      } else if l.Leave? {
        assert TurnsOf(t.turns, c) == TurnsOf(s.turns, c) - {turn};
      } else if Starts(r, l).Some? {
        assert TurnsOf(t.turns, c) == TurnsOf(s.turns, c) + {turn};
      }
    }
  }

  lemma RoomStepKeeps(s: State, c: ConvId, l: RoomMachine.Label, turn: TurnId)
    requires Inv(s) && RoomStep(s, c, l, turn).Some?
    ensures Inv(RoomStep(s, c, l, turn).value)
  {
    hide GateSafety.Inv, RoomMachine.Next, RoomsOk, RowBounded, GuardOk;
    var t := RoomStep(s, c, l, turn).value;
    RoomStepRooms(s, c, l, turn);
    RowsSame(s, t);
    forall o | o in t.turns ensures GuardOk(t.gate.db.rows, t.marked, t.turns[o]) {
      if o in s.turns && t.turns[o] == s.turns[o] {
        assert GuardOk(s.gate.db.rows, s.marked, s.turns[o]);
      } else {
        FreshGuardOk(t.gate.db.rows, t.marked, t.turns[o]);
      }
    }
  }

  lemma FreshGuardOk(rows: map<Key, Row>, marked: set<Key>, t: Turn)
    requires !t.guard.Peeked?
    ensures GuardOk(rows, marked, t)
  {
  }

  lemma RowsSame(s: State, t: State)
    requires RowsBounded(s) && t.gate == s.gate && t.marked == s.marked && t.fires == s.fires
    ensures RowsBounded(t)
  {
    forall k ensures RowBounded(t, k) {
      assert RowBounded(s, k);
    }
  }

  // ------------------------------------------------------------ guard steps

  lemma PeekKeeps(s: State, turn: TurnId, k: Key)
    requires Inv(s) && Next(s, Peek(turn, k)).Some?
    ensures Inv(Next(s, Peek(turn, k)).value)
  {
    hide GateSafety.Inv, RoomsOk;
    var t := Next(s, Peek(turn, k)).value;
    RoomsStay(s, t);
    RowsSame(s, t);
    assert RowBounded(s, k);
    forall o | o in t.turns ensures GuardOk(t.gate.db.rows, t.marked, t.turns[o]) {
      assert GuardOk(s.gate.db.rows, s.marked, s.turns[o]);
    }
  }

  lemma SkipKeeps(s: State, turn: TurnId)
    requires Inv(s) && Next(s, Skip(turn)).Some?
    ensures Inv(Next(s, Skip(turn)).value)
  {
    hide GateSafety.Inv, RoomsOk;
    var t := Next(s, Skip(turn)).value;
    RoomsStay(s, t);
    RowsSame(s, t);
    forall o | o in t.turns ensures GuardOk(t.gate.db.rows, t.marked, t.turns[o]) {
      assert GuardOk(s.gate.db.rows, s.marked, s.turns[o]);
    }
  }

  /** Firing touches the peeked row only: one more attempt, or the end of an approved row. */
  ghost predicate Fired(a: Db, b: Db, k: Key, attempts: nat) {
    && k in a.rows && k in b.rows
    && (forall j :: j != k ==> Get(b.rows, j) == Get(a.rows, j))
    && if attempts >= MAX_EXEC_ATTEMPTS
       then b.rows[k].attempts == a.rows[k].attempts && b.rows[k].status != Approved
            && (a.rows[k].status != Approved ==> b.rows[k] == a.rows[k])
       else b.rows[k] == a.rows[k].(attempts := a.rows[k].attempts + 1)
  }

  lemma RowTouched(db: Db, k: Key, attempts: nat)
    requires k in db.rows && RowOk(db, k)
    ensures Fired(db, if attempts >= MAX_EXEC_ATTEMPTS then MarkRow(db, k) else ClaimRow(db, k).0, k, attempts)
  {
  }

  lemma GateRowOk(g: GateMachine.State, k: Key)
    requires GateSafety.Inv(g) && k in g.db.rows
    ensures RowOk(g.db, k)
  {
    hide GateSafety.TransactionsOk, OnceEach, RowOk;
  }

  lemma FireTouches(g: GateMachine.State, k: Key, attempts: nat)
    requires GateSafety.Inv(g) && k in g.db.rows && GateMachine.Next(g, FireLabel(k, attempts)).Some?
    ensures Fired(g.db, GateMachine.Next(g, FireLabel(k, attempts)).value.db, k, attempts)
  {
    hide GateSafety.Inv, Fired, RowOk, MarkRow, ClaimRow, GateMachine.SessionStep;
    GateRowOk(g, k);
    RowTouched(g.db, k, attempts);
  }

  lemma FireKeeps(s: State, turn: TurnId)
    requires Inv(s) && Next(s, Fire(turn)).Some?
    ensures Inv(Next(s, Fire(turn)).value)
  {
    hide GateSafety.Inv, GateMachine.Next, RoomsOk;
    var k, a := s.turns[turn].guard.key, s.turns[turn].guard.attempts;
    var t := Next(s, Fire(turn)).value;
    assert GuardOk(s.gate.db.rows, s.marked, s.turns[turn]);
    GateSafety.StepKeeps(s.gate, FireLabel(k, a));
    GateSafety.StepMoves(s.gate, FireLabel(k, a));
    FireTouches(s.gate, k, a);
    RoomsStay(s, t);
    FireGuards(s, t, turn);
    FireRows(s, t, turn);
  }

  lemma FireRows(s: State, t: State, turn: TurnId)
    requires RowsBounded(s) && turn in s.turns && s.turns[turn].guard.Peeked?
    requires GuardOk(s.gate.db.rows, s.marked, s.turns[turn])
    requires var (k, a) := (s.turns[turn].guard.key, s.turns[turn].guard.attempts);
      && Fired(s.gate.db, t.gate.db, k, a) && RowMoves(s.gate.db.rows[k], t.gate.db.rows[k])
      && t.marked == (if a >= MAX_EXEC_ATTEMPTS then s.marked + {k} else s.marked)
      && t.fires == s.fires[k := Fires(s, k) + 1]
    ensures RowsBounded(t)
  {
    var k := s.turns[turn].guard.key;
    forall j ensures RowBounded(t, j) {
      assert RowBounded(s, j);
      if j != k {
        assert Get(t.gate.db.rows, j) == Get(s.gate.db.rows, j);
      }
    }
  }

  lemma FireGuards(s: State, t: State, turn: TurnId)
    requires RoomsOk(s) && GuardsOk(s) && turn in s.turns && s.turns[turn].guard.Peeked?
    requires t.turns == s.turns[turn := s.turns[turn].(guard := Over)]
    requires Fired(s.gate.db, t.gate.db, s.turns[turn].guard.key, s.turns[turn].guard.attempts)
    requires s.marked <= t.marked <= s.marked + {s.turns[turn].guard.key}
    ensures GuardsOk(t)
  {
    hide RoomsOk;
    var k := s.turns[turn].guard.key;
    assert GuardOk(s.gate.db.rows, s.marked, s.turns[turn]);
    forall o | o in t.turns ensures GuardOk(t.gate.db.rows, t.marked, t.turns[o]) {
      if o != turn {
        assert GuardOk(s.gate.db.rows, s.marked, s.turns[o]);
        if s.turns[o].guard.Peeked? {
          var j := s.turns[o].guard.key;
          if j == k {
            OneTurn(s, o, turn);
          }
          assert Get(t.gate.db.rows, j) == Get(s.gate.db.rows, j);
        }
      }
    }
  }

  // ------------------------------------------------------------ every run

  lemma StepKeeps(s: State, l: Label)
    requires Inv(s) && Next(s, l).Some?
    ensures Inv(Next(s, l).value)
  {
    hide Inv, RoomStep;
    match l
    case Gate(gl) => GateKeeps(s, gl);
    case InRoom(c, rl, turn) => RoomStepKeeps(s, c, rl, turn);
    case Peek(turn, k) => PeekKeeps(s, turn, k);
    case Skip(turn) => SkipKeeps(s, turn);
    case Fire(turn) => FireKeeps(s, turn);
  }

  lemma ReachableOk(s: State, ls: seq<Label>)
    requires Initial(s) && IsRun(Next, s, ls)
    ensures Inv(End(Next, s, ls))
  {
    assert Inv(s) by {
      GateSafety.InitialOk(s.gate);
    }
    hide Inv, Next;
    forall t, l | Inv(t) && Next(t, l).Some? ensures Inv(Next(t, l).value) {
      StepKeeps(t, l);
    }
    InvariantHolds(Next, Inv, s, ls);
  }

  /** In every run a row has at most three execution attempts, the guard fires at most four times for it,
      and once the guard marked it the row is never approved again. */
  lemma RedispatchIsBounded(s: State, ls: seq<Label>, k: Key)
    requires Initial(s) && IsRun(Next, s, ls)
    ensures var t := End(Next, s, ls);
      && (k in t.gate.db.rows ==> t.gate.db.rows[k].attempts <= 3)
      && Fires(t, k) <= 4
      && (k in t.marked ==> k in t.gate.db.rows && t.gate.db.rows[k].status != Approved)
  {
    ReachableOk(s, ls);
    assert RowBounded(End(Next, s, ls), k);
  }

  // ------------------------------------------------------------ what firing uses up

  /** What an approved row has left: its attempts and the mark that closes it. */
  function Left(row: Row): nat
    requires row.attempts <= MAX_EXEC_ATTEMPTS
  {
    if row.status == Approved then MAX_EXEC_ATTEMPTS + 1 - row.attempts else 0
  }

  ghost predicate Capped(rows: map<Key, Row>) {
    forall k :: k in rows ==> rows[k].attempts <= MAX_EXEC_ATTEMPTS
  }

  ghost function Lefts(rows: map<Key, Row>): map<Key, nat>
    requires Capped(rows)
  {
    map k | k in rows :: Left(rows[k])
  }

  /** What all approved rows have left. */
  ghost function Total(rows: map<Key, Row>): nat
    requires Capped(rows)
  {
    Sum(Lefts(rows))
  }

  /** Firing lowers what the approved rows have left exactly when the peeked grant is still approved; a
      grant that was executed between the peek and the update leaves it as it is. */
  lemma FireLowers(s: State, turn: TurnId)
    requires Inv(s) && Next(s, Fire(turn)).Some?
    ensures var t := Next(s, Fire(turn)).value; var k := s.turns[turn].guard.key;
      && Capped(s.gate.db.rows) && Capped(t.gate.db.rows) && k in s.gate.db.rows
      && Total(t.gate.db.rows) <= Total(s.gate.db.rows)
      && (Total(t.gate.db.rows) < Total(s.gate.db.rows) <==> s.gate.db.rows[k].status == Approved)
  {
    var t := Next(s, Fire(turn)).value;
    var a, b := s.gate.db.rows, t.gate.db.rows;
    var k := s.turns[turn].guard.key;
    FireKeeps(s, turn);
    RowsCapped(s);
    RowsCapped(t);
    FireRow(s, turn);
    hide Next, Inv, Total, Capped;
    TotalMoves(a, b, k);
  }

  lemma TotalMoves(a: map<Key, Row>, b: map<Key, Row>, k: Key)
    requires Capped(a) && Capped(b) && k in a && k in b && forall j :: j != k ==> Get(b, j) == Get(a, j)
    ensures Total(b) + Left(a[k]) == Total(a) + Left(b[k])
  {
    SameKeys(a, b, k);
    assert Lefts(b) == Lefts(a)[k := Left(b[k])];
    SumUpdate(Lefts(a), k, Left(b[k]));
  }

  /** What firing does to the peeked row. */
  lemma FireRow(s: State, turn: TurnId)
    requires Inv(s) && Next(s, Fire(turn)).Some?
    ensures var a, b := s.gate.db.rows, Next(s, Fire(turn)).value.gate.db.rows; var k := s.turns[turn].guard.key;
      && k in a && k in b && a[k].attempts <= MAX_EXEC_ATTEMPTS && b[k].attempts <= MAX_EXEC_ATTEMPTS
      && (forall j :: j != k ==> Get(b, j) == Get(a, j))
      && (a[k].status == Approved ==> Left(b[k]) < Left(a[k]))
      && (a[k].status != Approved ==> Left(b[k]) == Left(a[k]))
  {
    var k := s.turns[turn].guard.key;
    assert GuardOk(s.gate.db.rows, s.marked, s.turns[turn]) && RowBounded(s, k);
    hide GateMachine.Next, GateSafety.Inv, RoomsOk, GuardsOk, RowsBounded;
    FireTouches(s.gate, k, s.turns[turn].guard.attempts);
  }

  lemma RowsCapped(s: State)
    requires RowsBounded(s)
    ensures Capped(s.gate.db.rows)
  {
    forall k | k in s.gate.db.rows ensures s.gate.db.rows[k].attempts <= MAX_EXEC_ATTEMPTS {
      assert RowBounded(s, k);
    }
  }

  lemma SameKeys(a: map<Key, Row>, b: map<Key, Row>, k: Key)
    requires k in a && k in b && forall j :: j != k ==> Get(b, j) == Get(a, j)
    ensures a.Keys == b.Keys && forall j :: j in a && j != k ==> a[j] == b[j]
  {
    forall j ensures (j in a <==> j in b) && (j in a && j != k ==> a[j] == b[j]) {
      assert j != k ==> Get(b, j) == Get(a, j);
    }
  }

  // ------------------------------------------------------------ a fire that uses nothing up

  /** What the gate can do alone, it can do here. */
  lemma {:induction false} LiftGate(s: State, ls: seq<GateMachine.Label>, g: GateMachine.State) returns (rs: seq<Label>)
    requires GateRuns.OfSessions(ls) && Leads(GateMachine.Next, s.gate, ls, g)
    ensures Leads(Next, s, rs, s.(gate := g))
    decreases |ls|
  {
    hide GateMachine.Next;
    rs := [];
    if ls == [] {
      assert s.(gate := g) == s;
    } else {
      assert ls[0] in ls && (ls[0].Begin? || GateMachine.InSession(ls[0]));
      var t := s.(gate := GateMachine.Next(s.gate, ls[0]).value);
      assert Next(s, Gate(ls[0])) == Some(t);
      var rest := LiftGate(t, ls[1..], g);
      hide Next;
      StepsFirst(Next, s, Gate(ls[0]), rest);
      rs := [Gate(ls[0])] + rest;
      assert t.(gate := g) == s.(gate := g);
    }
  }

  const DONE_EVENT := Event(TASK_DONE, Some(GATED_ROLE), "")

  /** A task_done event wakes a turn in an idle room. */
  lemma TurnStarts(s: State, conv: ConvId, turn: TurnId) returns (ls: seq<Label>, t: State)
    requires conv !in s.rooms && turn !in s.turns
    ensures Leads(Next, s, ls, t) && t.gate == s.gate
    ensures t.turns == s.turns[turn := Turn(conv, DONE_EVENT, Fresh)]
  {
    var e := DONE_EVENT;
    var s1 := Next(s, InRoom(conv, RoomMachine.Arrive(e), turn)).value;
    assert e in RoomOf(s1, conv).arrivals && !RoomOf(s1, conv).slot.busy;
    t := Next(s1, InRoom(conv, RoomMachine.EnterArrival(e), turn)).value;
    hide Next, RoomStep;
    Stays(Next, s);
    ls := LeadsOn(Next, s, [], s, InRoom(conv, RoomMachine.Arrive(e), turn), s1);
    ls := LeadsOn(Next, s, ls, s1, InRoom(conv, RoomMachine.EnterArrival(e), turn), t);
  }

  /** A person approves the ticket that a transaction opened. */
  lemma TicketIsApproved(s: State, req: Request) returns (ls: seq<Label>, t: State)
    requires GateRuns.Free(s.gate, 1, req) && req.Key() !in s.gate.db.rows
    ensures Leads(Next, s, ls, t) && t == s.(gate := t.gate)
    ensures 2 !in s.gate.sessions ==> GateRuns.Free(t.gate, 2, req)
    ensures IsGrant(t.gate.db, req.conv, req.Key()) && t.gate.db.rows[req.Key()].attempts == 0
  {
    var k := req.Key();
    var gs, snapshot := GateRuns.OpensTicket(s.gate, 1, req);
    var g := GateRuns.Served(s.gate, 1, req, 0.0, GateMachine.PendingInsert(snapshot));
    ls := LiftGate(s, gs, g);
    var l := GateMachine.Settle(k, true, "approver", None);
    var h := GateMachine.Next(g, l).value;
    t := s.(gate := h);
    assert Next(s.(gate := g), Gate(l)) == Some(t);
    hide Next, GateMachine.Next;
    ls := LeadsOn(Next, s, ls, s.(gate := g), Gate(l), t);
  }

  /** Between the peek of a grant and its update, a transaction executes it: a run from the start in which
      the guard fires and uses nothing up. */
  lemma FireCanMiss() returns (s: State, ls: seq<Label>, turn: TurnId)
    ensures Initial(s) && IsRun(Next, s, ls)
    ensures var t := End(Next, s, ls);
      && Inv(t) && Next(t, Fire(turn)).Some?
      && var u := Next(t, Fire(turn)).value;
         && Capped(t.gate.db.rows) && Capped(u.gate.db.rows)
         && Total(u.gate.db.rows) == Total(t.gate.db.rows)
         && Fires(u, t.turns[turn].guard.key) == Fires(t, t.turns[turn].guard.key) + 1
  {
    var req := Request(0, Disburse, map[], None);
    var g := GateMachine.State(EMPTY, {0}, {}, [], map[], map[], map[], map[], map[], {});
    s := State(g, map[], map[], {}, map[]);
    turn := 7;
    assert GateRuns.Free(g, 1, req);
    var s1;
    ls, s1 := TicketIsApproved(s, req);
    var more, s2 := TurnStarts(s1, 0, turn);
    hide Next, GateRuns.Free, GateMachine.Next;
    ls := LeadsThrough(Next, s, ls, s1, more, s2);
    var s3;
    more, s3 := PeekedThenExecuted(s2, req, turn);
    ls := LeadsThrough(Next, s, ls, s2, more, s3);
    ReachableOk(s, ls);
    FireLowers(s3, turn);
    FireCounts(s3, turn);
  }

  lemma FireCounts(s: State, turn: TurnId)
    requires Next(s, Fire(turn)).Some?
    ensures Fires(Next(s, Fire(turn)).value, s.turns[turn].guard.key) == Fires(s, s.turns[turn].guard.key) + 1
  {
    hide GateMachine.Next;
  }

  /** The guard of a fresh turn peeks the grant, a transaction executes it, and the guard can still fire. */
  lemma PeekedThenExecuted(s: State, req: Request, turn: TurnId) returns (ls: seq<Label>, t: State)
    requires GateRuns.Free(s.gate, 2, req) && IsGrant(s.gate.db, req.conv, req.Key())
    requires s.gate.db.rows[req.Key()].attempts < MAX_EXEC_ATTEMPTS
    requires turn in s.turns && s.turns[turn] == Turn(req.conv, DONE_EVENT, Fresh)
    ensures Leads(Next, s, ls, t) && Next(t, Fire(turn)).Some?
    ensures turn in t.turns && t.turns[turn].guard.Peeked? && t.turns[turn].guard.key == req.Key()
    ensures req.Key() in t.gate.db.rows && t.gate.db.rows[req.Key()].status == Used
  {
    var k := req.Key();
    var s1 := Next(s, Peek(turn, k)).value;
    assert Next(s, Peek(turn, k)) == Some(s1) && s1.gate == s.gate;
    var gs := GateRuns.ExecutesGrant(s1.gate, 2, req, "done");
    var g := GateRuns.Served(s1.gate, 2, req, 0.0, GateMachine.Finalize(Receipt("done", false)));
    var more := LiftGate(s1, gs, g);
    t := s1.(gate := g);
    assert k in g.db.rows && g.db.rows[k].status == Used && k !in g.rowLocks;
    hide GateRuns.Free, GateRuns.Served;
    assert Next(t, Fire(turn)).Some?;
    hide Next;
    Stays(Next, s);
    ls := LeadsOn(Next, s, [], s, Peek(turn, k), s1);
    ls := LeadsThrough(Next, s, ls, s1, more, t);
  }

  // ------------------------------------------------------------ the guard itself

  /** The event that wakes a turn, with what the guard reads of its data. */
  datatype Wake = Wake(kind: string, role: Option<string>, decision: Option<string>, gated: bool)

  datatype Outcome = Outcome(handled: bool, redispatched: Option<Key>, failed: Option<Key>)

  /** `_resume_dispatch_guard`; `running` holds the roles with a running task. */
  method ResumeDispatchGuard(store: ApprovalStore, conv: ConvId, wake: Wake, running: set<string>, id: Key -> nat)
    returns (o: Outcome)
    modifies store
    ensures wake.kind == "approval_decided" ==>
      && store.View() == old(store.View())
      && o == Outcome(wake.decision == Some("approved") && wake.gated && GATED_ROLE in running, None, None)
    ensures wake.kind != "approval_decided" ==> (o.handled <==> o.redispatched.Some?)
    ensures o.redispatched.Some? ==>
      && IsGrant(old(store.View()), conv, o.redispatched.value)
      && old(store.View()).rows[o.redispatched.value].attempts < 3
      && store.View() == ClaimRow(old(store.View()), o.redispatched.value).0
    ensures o.failed.Some? ==>
      && o.redispatched.None?
      && IsGrant(old(store.View()), conv, o.failed.value)
      && old(store.View()).rows[o.failed.value].attempts >= 3
      && store.View() == MarkRow(old(store.View()), o.failed.value)
    ensures forall k :: IsGrant(old(store.View()), conv, k) ==>
      && (o.redispatched.Some? ==> id(o.redispatched.value) <= id(k))
      && (o.failed.Some? ==> id(o.failed.value) <= id(k))
    ensures o.redispatched.None? && o.failed.None? ==> store.View() == old(store.View())
    ensures o.redispatched.Some? || o.failed.Some? <==>
      && wake.kind == TASK_DONE && wake.role == Some(GATED_ROLE) && GATED_ROLE !in running
      && exists k :: IsGrant(old(store.View()), conv, k)
  {
    o := Outcome(false, None, None);
    if wake.kind == "approval_decided" && wake.decision == Some("approved") {
      if wake.gated && GATED_ROLE in running {
        return Outcome(true, None, None);
      }
    }
    if wake.kind == TASK_DONE {
      var grant := store.PeekGrant(conv, id);
      if grant.None? {
        return;
      }
      if !(wake.role == Some(GATED_ROLE) && GATED_ROLE !in running) {
        return;
      }
      if store.rows[grant.value].attempts >= MAX_EXEC_ATTEMPTS {
        store.MarkExecFailed(grant.value);
        return Outcome(false, None, grant);
      }
      var attempt := store.ClaimExecAttempt(grant.value);
      return Outcome(true, grant, None);
    }
  }
}
