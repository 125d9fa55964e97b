/**
 `ops_disburse` of roles/operations/functions.py statement by statement, as the bridge runs it: BEGIN is
 dropped, so the gate check, the second look, the count and the insert are separate statements that each
 read what is committed. Transactions run one per approval key; the ledger id is a primary key, so an
 insert waits for an uncommitted row with the same id.
 */
module OpsRace {
  import opened Wrappers
  import opened Machines
  import opened OpsLedger

  /** Approval keys, of which only the identity matters here. */
  type KeyId = nat

  /** The next statement. `looked` and `counted` are the lengths of the ledger at the second look and at
      the count. */
  datatype Pc =
    | Check
    | Look
    | Count(looked: nat)
    | Insert(looked: nat, counted: nat)
    | Commit(looked: nat, counted: nat)
    | Ended(paid: bool)

  datatype Tx = Tx(app: string, beneficiary: string, amount: real, pc: Pc)

  datatype State = State(tables: Tables, txs: map<KeyId, Tx>)

  datatype Move = Start(k: KeyId, app: string, amount: real, beneficiary: string) | Do(k: KeyId)

  predicate MayPay(t: Tables, app: string, amount: real) {
    && amount > 0.0 && app in t.applications && amount == t.applications[app].amount
    && GatesHold(t.applications[app], StepsOf(t, app)) && !Executed(t.ledger, app)
  }

  /** Another transaction holds an uncommitted row with this id. */
  predicate Held(txs: map<KeyId, Tx>, k: KeyId, counted: nat) {
    exists o :: o in txs && o != k && txs[o].pc.Commit? && txs[o].pc.counted == counted
  }

  function Row(tx: Tx, counted: nat): Disbursement {
    Disbursement(IdOf(counted + 1), tx.app, tx.amount, tx.beneficiary, true, ReceiptOf(counted + 1))
  }

  function Paid(t: Tables, d: Disbursement): Tables {
    t.(ledger := t.ledger + [d],
       applications := if d.application in t.applications
                       then t.applications[d.application := t.applications[d.application].(status := "disbursed")]
                       else t.applications)
  }

  /** The next statement of a transaction; None while it waits or when it has ended. */
  function Statement(s: State, k: KeyId): Option<Pc>
    requires k in s.txs
  {
    var t, tx := s.tables, s.txs[k];
    match tx.pc
    case Check => Some(if MayPay(t, tx.app, tx.amount) then Look else Ended(false))
    case Look => Some(if Executed(t.ledger, tx.app) then Ended(false) else Count(|t.ledger|))
    case Count(looked) => Some(Insert(looked, |t.ledger|))
    case Insert(looked, counted) =>
      if IdTaken(t.ledger, IdOf(counted + 1)) then Some(Ended(false))
      else if Held(s.txs, k, counted) then None
      else Some(Commit(looked, counted))
    case Commit(_, _) => Some(Ended(true))
    case Ended(_) => None
  }

  function Next(s: State, m: Move): Option<State> {
    match m
    case Start(k, app, amount, beneficiary) =>
      if k in s.txs && !s.txs[k].pc.Ended? then None
      else Some(s.(txs := s.txs[k := Tx(app, beneficiary, amount, Check)]))
    case Do(k) =>
      if k !in s.txs || Statement(s, k).None? then None
      else
        var tx := s.txs[k];
        Some(State(if tx.pc.Commit? then Paid(s.tables, Row(tx, tx.pc.counted)) else s.tables,
                   s.txs[k := tx.(pc := Statement(s, k).value)]))
  }

  // ------------------------------------------------------------ what every interleaving keeps

  /** What a transaction knows of the ledger. An insert that waits to commit still has the last number. */
  predicate Knows(ledger: seq<Disbursement>, tx: Tx) {
    match tx.pc
    case Count(looked) => looked <= |ledger| && !Executed(ledger[..looked], tx.app)
    case Insert(looked, counted) => looked <= counted <= |ledger| && !Executed(ledger[..looked], tx.app)
    case Commit(looked, counted) => looked <= counted == |ledger| && !Executed(ledger[..looked], tx.app)
    case _ => true
  }

  /** At most one transaction has an uncommitted row. */
  ghost predicate OneHolder(txs: map<KeyId, Tx>) {
    forall a, b :: a in txs && b in txs && txs[a].pc.Commit? && txs[b].pc.Commit? ==> a == b
  }

  ghost predicate Inv(s: State) {
    && Numbered(s.tables.ledger)
    && OneHolder(s.txs)
    && forall k :: k in s.txs ==> Knows(s.tables.ledger, s.txs[k])
  }

  lemma ExecutedAt(ledger: seq<Disbursement>, app: string)
    ensures Executed(ledger, app) <==> exists i :: 0 <= i < |ledger| && ledger[i].application == app && ledger[i].executed
  {
  }

  /** A free id past the ledger's numbers is the next one. */
  lemma FreeIsNext(ledger: seq<Disbursement>, counted: nat)
    requires Numbered(ledger) && counted <= |ledger|
    ensures IdTaken(ledger, IdOf(counted + 1)) <==> counted < |ledger|
  {
    hide IdOf;
    if counted < |ledger| {
      assert ledger[counted].id == IdOf(counted + 1);
    } else {
      NextIdIsFree(ledger);
    }
  }

  lemma KnowsGrows(ledger: seq<Disbursement>, d: Disbursement, tx: Tx)
    requires Knows(ledger, tx) && !tx.pc.Commit?
    ensures Knows(ledger + [d], tx)
  {
    hide Executed;
    assert tx.pc.Count? || tx.pc.Insert? ==> (ledger + [d])[..tx.pc.looked] == ledger[..tx.pc.looked];
  }

  lemma CommitKeeps(s: State, k: KeyId)
    requires Inv(s) && k in s.txs && s.txs[k].pc.Commit?
    ensures Next(s, Do(k)).Some? && Inv(Next(s, Do(k)).value)
  {
    hide IdOf, ReceiptOf, Executed, GatesHold, IdTaken;
    var t, tx := Next(s, Do(k)).value, s.txs[k];
    forall o | o in t.txs ensures Knows(t.tables.ledger, t.txs[o]) {
      if o != k {
        KnowsGrows(s.tables.ledger, Row(tx, tx.pc.counted), s.txs[o]);
      }
    }
  }

  lemma StepKeeps(s: State, m: Move)
    requires Inv(s) && Next(s, m).Some?
    ensures Inv(Next(s, m).value)
  {
    hide IdOf, ReceiptOf, Executed, GatesHold, IdTaken, Paid, Row;
    if m.Do? {
      var tx := s.txs[m.k];
      assert Knows(s.tables.ledger, tx);
      if tx.pc.Commit? {
        CommitKeeps(s, m.k);
        hide *;
      } else {
        if tx.pc.Insert? {
          FreeIsNext(s.tables.ledger, tx.pc.counted);
        }
        if tx.pc.Look? {
          assert s.tables.ledger[..|s.tables.ledger|] == s.tables.ledger;
        }
      }
    }
  }

  /** Ids and receipt codes never clash, however the transactions interleave. */
  lemma NumbersNeverClash(s: State, ms: seq<Move>, i: nat, j: nat)
    requires Inv(s) && IsRun(Next, s, ms) && i < j < |End(Next, s, ms).tables.ledger|
    ensures var ledger := End(Next, s, ms).tables.ledger;
      ledger[i].id != ledger[j].id && ledger[i].receipt != ledger[j].receipt
  {
    hide Next;
    forall t, m | Inv(t) && Next(t, m).Some? ensures Inv(Next(t, m).value) {
      StepKeeps(t, m);
    }
    InvariantHolds(Next, Inv, s, ms);
    NumbersDiffer(i + 1, j + 1);
    hide IdOf, ReceiptOf;
  }

  lemma RowAppended(ledger: seq<Disbursement>, d: Disbursement)
    requires PaidOnce(ledger) && d.executed
    ensures PaidOnce(ledger + [d]) <==> !Executed(ledger, d.application)
  {
    ExecutedAt(ledger, d.application);
    hide Executed;
    var all := ledger + [d];
    if PaidOnce(all) {
      forall i | 0 <= i < |ledger| ensures !(ledger[i].application == d.application && ledger[i].executed) {
        assert all[i] == ledger[i] && all[|ledger|] == d;
      }
    }
  }

  /** A commit keeps every application paid once exactly when no payment of its application was committed
      between its second look and its count. */
  lemma CommitKeepsOnceIff(s: State, k: KeyId)
    requires Inv(s) && PaidOnce(s.tables.ledger) && k in s.txs && s.txs[k].pc.Commit?
    ensures var tx := s.txs[k];
      && tx.pc.looked <= tx.pc.counted <= |s.tables.ledger|
      && Next(s, Do(k)).Some?
      && (PaidOnce(Next(s, Do(k)).value.tables.ledger)
          <==> !Executed(s.tables.ledger[tx.pc.looked..tx.pc.counted], tx.app))
  {
    hide IdOf, ReceiptOf, Executed, PaidOnce, Numbered, GatesHold;
    var ledger, tx := s.tables.ledger, s.txs[k];
    assert Knows(ledger, tx);
    hide Inv, Knows;
    RowAppended(ledger, Row(tx, tx.pc.counted));
    assert ledger[tx.pc.looked..tx.pc.counted] == ledger[tx.pc.looked..];
    SplitExecuted(ledger, tx.pc.looked, tx.app);
  }

  lemma SplitExecuted(ledger: seq<Disbursement>, n: nat, app: string)
    requires n <= |ledger|
    ensures Executed(ledger, app) <==> Executed(ledger[..n], app) || Executed(ledger[n..], app)
  {
    ExecutedAt(ledger, app);
    ExecutedAt(ledger[..n], app);
    ExecutedAt(ledger[n..], app);
    hide Executed;
    assert forall i :: 0 <= i < |ledger| ==> ledger[i] == if i < n then ledger[..n][i] else ledger[n..][i - n];
  }

  /** A commit adds one row of the transaction and marks its application; no other statement changes the
      tables, and only a commit makes a transaction answer that it paid. */
  lemma OnlyCommitsPay(s: State, m: Move)
    requires Next(s, m).Some?
    ensures var t := Next(s, m).value; var commits := m.Do? && s.txs[m.k].pc.Commit?;
      && (!commits ==> t.tables == s.tables)
      && (m.Do? ==> m.k in t.txs && (t.txs[m.k].pc == Ended(true) <==> commits))
      && (commits ==>
            var app := s.txs[m.k].app;
            && |t.tables.ledger| == |s.tables.ledger| + 1 && s.tables.ledger <= t.tables.ledger
            && t.tables.ledger[|s.tables.ledger|].application == app
            && t.tables.ledger[|s.tables.ledger|].amount == s.txs[m.k].amount
            && t.tables.ledger[|s.tables.ledger|].executed
            && t.tables.applications.Keys == s.tables.applications.Keys && t.tables.steps == s.tables.steps
            && forall a :: a in s.tables.applications ==>
                 t.tables.applications[a]
                 == if a == app then s.tables.applications[a].(status := "disbursed") else s.tables.applications[a])
  {
    hide IdOf, ReceiptOf, IdTaken, Executed, GatesHold;
  }

  // ------------------------------------------------------------ one application paid twice

  /** Two transactions on one application under different keys. */
  function Two(t: Tables, app: string, amount: real, first: Pc, second: Pc): State {
    State(t, map[1 := Tx(app, "first", amount, first), 2 := Tx(app, "second", amount, second)])
  }

  lemma FirstMoves(t: Tables, app: string, amount: real, first: Pc, second: Pc, pc: Pc)
    requires !first.Commit? && Statement(Two(t, app, amount, first, second), 1) == Some(pc)
    ensures Next(Two(t, app, amount, first, second), Do(1)) == Some(Two(t, app, amount, pc, second))
  {
    hide Statement;
    assert Two(t, app, amount, first, second).txs[1 := Tx(app, "first", amount, pc)] == Two(t, app, amount, pc, second).txs;
  }

  lemma SecondMoves(t: Tables, app: string, amount: real, first: Pc, second: Pc, pc: Pc)
    requires !second.Commit? && Statement(Two(t, app, amount, first, second), 2) == Some(pc)
    ensures Next(Two(t, app, amount, first, second), Do(2)) == Some(Two(t, app, amount, first, pc))
  {
    hide Statement;
    assert Two(t, app, amount, first, second).txs[2 := Tx(app, "second", amount, pc)] == Two(t, app, amount, first, pc).txs;
  }

  lemma FirstCommits(t: Tables, app: string, amount: real, looked: nat, counted: nat, second: Pc)
    ensures Next(Two(t, app, amount, Commit(looked, counted), second), Do(1))
         == Some(Two(Paid(t, Row(Tx(app, "first", amount, Check), counted)), app, amount, Ended(true), second))
  {
    hide IdOf, ReceiptOf;
    assert Two(t, app, amount, Commit(looked, counted), second).txs[1 := Tx(app, "first", amount, Ended(true))]
        == Two(t, app, amount, Ended(true), second).txs;
  }

  lemma SecondCommits(t: Tables, app: string, amount: real, first: Pc, looked: nat, counted: nat)
    ensures Next(Two(t, app, amount, first, Commit(looked, counted)), Do(2))
         == Some(Two(Paid(t, Row(Tx(app, "second", amount, Check), counted)), app, amount, first, Ended(true)))
  {
    hide IdOf, ReceiptOf;
    assert Two(t, app, amount, first, Commit(looked, counted)).txs[2 := Tx(app, "second", amount, Ended(true))]
        == Two(t, app, amount, first, Ended(true)).txs;
  }

  lemma BothStart(t: Tables, app: string, amount: real) returns (ms: seq<Move>)
    ensures Leads(Next, State(t, map[]), ms, Two(t, app, amount, Check, Check))
  {
    var s := State(t, map[]);
    var s1 := State(t, map[1 := Tx(app, "first", amount, Check)]);
    assert s.txs[1 := Tx(app, "first", amount, Check)] == s1.txs;
    assert s1.txs[2 := Tx(app, "second", amount, Check)] == Two(t, app, amount, Check, Check).txs;
    assert Next(s, Start(1, app, amount, "first")) == Some(s1);
    assert Next(s1, Start(2, app, amount, "second")) == Some(Two(t, app, amount, Check, Check));
    hide Next, Two;
    Stays(Next, s);
    ms := LeadsOn(Next, s, [], s, Start(1, app, amount, "first"), s1);
    ms := LeadsOn(Next, s, ms, s1, Start(2, app, amount, "second"), Two(t, app, amount, Check, Check));
  }

  /** The first transaction pays between the second look and the count of the second. */
  lemma FirstPays(t: Tables, app: string, amount: real) returns (ms: seq<Move>)
    requires Numbered(t.ledger) && MayPay(t, app, amount)
    ensures var n := |t.ledger|;
      Leads(Next, State(t, map[]), ms,
            Two(Paid(t, Row(Tx(app, "first", amount, Check), n)), app, amount, Ended(true), Count(n)))
  {
    var n := |t.ledger|;
    FreeIsNext(t.ledger, n);
    hide IdOf, ReceiptOf, IdTaken, Executed, GatesHold;
    FirstMoves(t, app, amount, Check, Check, Look);
    SecondMoves(t, app, amount, Look, Check, Look);
    FirstMoves(t, app, amount, Look, Look, Count(n));
    SecondMoves(t, app, amount, Count(n), Look, Count(n));
    FirstMoves(t, app, amount, Count(n), Count(n), Insert(n, n));
    FirstMoves(t, app, amount, Insert(n, n), Count(n), Commit(n, n));
    FirstCommits(t, app, amount, n, n, Count(n));
    hide Next, Two, Paid, Row;
    var s := State(t, map[]);
    ms := BothStart(t, app, amount);
    ms := LeadsOn(Next, s, ms, Two(t, app, amount, Check, Check), Do(1), Two(t, app, amount, Look, Check));
    ms := LeadsOn(Next, s, ms, Two(t, app, amount, Look, Check), Do(2), Two(t, app, amount, Look, Look));
    ms := LeadsOn(Next, s, ms, Two(t, app, amount, Look, Look), Do(1), Two(t, app, amount, Count(n), Look));
    ms := LeadsOn(Next, s, ms, Two(t, app, amount, Count(n), Look), Do(2), Two(t, app, amount, Count(n), Count(n)));
    ms := LeadsOn(Next, s, ms, Two(t, app, amount, Count(n), Count(n)), Do(1), Two(t, app, amount, Insert(n, n), Count(n)));
    ms := LeadsOn(Next, s, ms, Two(t, app, amount, Insert(n, n), Count(n)), Do(1), Two(t, app, amount, Commit(n, n), Count(n)));
    ms := LeadsOn(Next, s, ms, Two(t, app, amount, Commit(n, n), Count(n)), Do(1),
                  Two(Paid(t, Row(Tx(app, "first", amount, Check), n)), app, amount, Ended(true), Count(n)));
  }

  lemma PaidIsNumbered(t: Tables, tx: Tx)
    requires Numbered(t.ledger)
    ensures Numbered(Paid(t, Row(tx, |t.ledger|)).ledger)
  {
    hide IdOf, ReceiptOf;
  }

  /** Whatever application may be paid, two transactions under different keys can interleave so that both
      pay it. */
  lemma PaidTwice(t: Tables, app: string, amount: real) returns (ms: seq<Move>)
    requires Numbered(t.ledger) && MayPay(t, app, amount)
    ensures IsRun(Next, State(t, map[]), ms)
    ensures var n := |t.ledger|; var ledger := End(Next, State(t, map[]), ms).tables.ledger;
      && |ledger| == n + 2
      && ledger[n].application == app && ledger[n].executed && ledger[n].amount == amount
      && ledger[n + 1].application == app && ledger[n + 1].executed && ledger[n + 1].amount == amount
  {
    var n := |t.ledger|;
    var s := State(t, map[]);
    var u := Paid(t, Row(Tx(app, "first", amount, Check), n));
    var v := Paid(u, Row(Tx(app, "second", amount, Check), n + 1));
    PaidIsNumbered(t, Tx(app, "first", amount, Check));
    assert |u.ledger| == n + 1 && |v.ledger| == n + 2;
    FreeIsNext(u.ledger, n + 1);
    ms := FirstPays(t, app, amount);
    hide IdOf, ReceiptOf, IdTaken, Executed, GatesHold, MayPay;
    SecondMoves(u, app, amount, Ended(true), Count(n), Insert(n, n + 1));
    SecondMoves(u, app, amount, Ended(true), Insert(n, n + 1), Commit(n, n + 1));
    SecondCommits(u, app, amount, Ended(true), n, n + 1);
    hide Next;
    ms := LeadsOn(Next, s, ms, Two(u, app, amount, Ended(true), Count(n)), Do(2),
                  Two(u, app, amount, Ended(true), Insert(n, n + 1)));
    ms := LeadsOn(Next, s, ms, Two(u, app, amount, Ended(true), Insert(n, n + 1)), Do(2),
                  Two(u, app, amount, Ended(true), Commit(n, n + 1)));
    ms := LeadsOn(Next, s, ms, Two(u, app, amount, Ended(true), Commit(n, n + 1)), Do(2),
                  Two(v, app, amount, Ended(true), Ended(true)));
  }

  /** There is such an application: one whose gates hold, over an empty ledger. */
  lemma SomeApplicationMayBePaid() returns (t: Tables)
    ensures Numbered(t.ledger) && MayPay(t, "APP-1", 1.0)
  {
    var app := Application("C001", 1.0, "in_progress", true, true, "approved");
    t := Tables(map["APP-1" := app], map[], []);
  }
}
