/** Runs of the gate in which one transaction goes all the way, for the results that need an actual run. */
module GateRuns {
  import opened Wrappers
  import opened Machines
  import opened Payload
  import opened Lanes
  import opened Verdict
  import opened Approvals
  import opened GateMachine
  import GateSafety

  /** The state with a transaction of the request at `pc`, holding the lock of its key or not. */
  function With(s: State, sid: Sid, req: Request, threshold: real, pc: Pc, locked: bool): State {
    s.(sessions := s.sessions[sid := Session(req, req.Key(), threshold, pc)],
       locks := if locked then s.locks[req.Key() := sid] else s.locks)
  }

  /** The request can run through: its conversation is known and not linked, and nobody holds its locks. */
  predicate Free(s: State, sid: Sid, req: Request) {
    && sid !in s.sessions && req.conv in s.convs && req.conv !in s.linked
    && req.Key() !in s.locks && req.Key() !in s.rowLocks
    && req.action == Disburse && AmountOf(req.action, req.args, req.amount)
  }

  lemma GotoStep(s: State, sid: Sid, req: Request, threshold: real, pc: Pc, locked: bool, l: Label, pc2: Pc)
    requires InSession(l) && l.sid == sid
    requires MoveOf(With(s, sid, req, threshold, pc, locked), l) == Some(Goto(pc2))
    ensures Next(With(s, sid, req, threshold, pc, locked), l) == Some(With(s, sid, req, threshold, pc2, locked))
  {
    hide MoveOf, KeyOf;
    var a, b := With(s, sid, req, threshold, pc, locked), With(s, sid, req, threshold, pc2, locked);
    assert At(a, sid, pc2).sessions == b.sessions;
  }

  /** Labels of transactions only. */
  ghost predicate OfSessions(ls: seq<Label>) {
    forall l :: l in ls ==> l.Begin? || InSession(l)
  }

  lemma Begins(s: State, sid: Sid, req: Request)
    requires Free(s, sid, req)
    ensures Next(s, Begin(sid, req)) == Some(With(s, sid, req, 0.0, CheckLinkFirst, false))
  {
    hide KeyOf, AmountOf, SessionStep;
  }

  lemma ReadsSetting(s: State, sid: Sid, req: Request, row: Option<Option<Num>>)
    ensures Next(With(s, sid, req, 0.0, ReadThreshold, false), ReadSetting(sid, row))
         == Some(With(s, sid, req, Threshold(row), CheckLinkAgain, false))
  {
    hide KeyOf, Threshold, GatedDecision;
    var a := With(s, sid, req, 0.0, ReadThreshold, false);
    assert a.sessions[sid := a.sessions[sid].(threshold := Threshold(row), pc := CheckLinkAgain)]
        == With(s, sid, req, Threshold(row), CheckLinkAgain, false).sessions;
  }

  lemma TakesLock(s: State, sid: Sid, req: Request, threshold: real)
    requires req.Key() !in s.locks
    ensures Next(With(s, sid, req, threshold, TakeLock, false), Step(sid))
         == Some(With(s, sid, req, threshold, ReadReceipt, true))
  {
    hide KeyOf, GatedDecision;
    var a := With(s, sid, req, threshold, TakeLock, false);
    assert At(a, sid, ReadReceipt).sessions == With(s, sid, req, threshold, ReadReceipt, true).sessions;
  }

  /** The statements before the branches. */
  lemma Opens(s: State, sid: Sid, req: Request, row: Option<Option<Num>>) returns (ls: seq<Label>)
    requires Free(s, sid, req)
    ensures OfSessions(ls) && Leads(Next, s, ls, With(s, sid, req, Threshold(row), ReadReceipt, true))
  {
    hide KeyOf, AmountOf, Threshold, GatedDecision, Leads;
    var t := Threshold(row);
    GotoStep(s, sid, req, 0.0, CheckLinkFirst, false, Step(sid), ReadThreshold);
    GotoStep(s, sid, req, t, CheckLinkAgain, false, Step(sid), CheckOwner);
    GotoStep(s, sid, req, t, CheckOwner, false, Owner(sid, false), TakeLock);
    Begins(s, sid, req);
    ReadsSetting(s, sid, req, row);
    TakesLock(s, sid, req, t);
    hide Next, With;
    Stays(Next, s);
    ls := LeadsOn(Next, s, [], s, Begin(sid, req), With(s, sid, req, 0.0, CheckLinkFirst, false));
    ls := LeadsOn(Next, s, ls, With(s, sid, req, 0.0, CheckLinkFirst, false), Step(sid),
                  With(s, sid, req, 0.0, ReadThreshold, false));
    ls := LeadsOn(Next, s, ls, With(s, sid, req, 0.0, ReadThreshold, false), ReadSetting(sid, row),
                  With(s, sid, req, t, CheckLinkAgain, false));
    ls := LeadsOn(Next, s, ls, With(s, sid, req, t, CheckLinkAgain, false), Step(sid),
                  With(s, sid, req, t, CheckOwner, false));
    ls := LeadsOn(Next, s, ls, With(s, sid, req, t, CheckOwner, false), Owner(sid, false),
                  With(s, sid, req, t, TakeLock, false));
    ls := LeadsOn(Next, s, ls, With(s, sid, req, t, TakeLock, false), Step(sid),
                  With(s, sid, req, t, ReadReceipt, true));
  }

  /** With no row for the key, all branches are passed. */
  lemma PassesBranches(s: State, sid: Sid, req: Request, t: real, start: State, before: seq<Label>)
    returns (ls: seq<Label>)
    requires req.Key() !in s.db.rows
    requires OfSessions(before) && Leads(Next, start, before, With(s, sid, req, t, ReadReceipt, true))
    ensures OfSessions(ls) && Leads(Next, start, ls, With(s, sid, req, t, Decide, true))
  {
    hide KeyOf, GatedDecision, Leads;
    GotoStep(s, sid, req, t, ReadReceipt, true, Step(sid), SelectGrant);
    GotoStep(s, sid, req, t, SelectGrant, true, Step(sid), ReadPending);
    GotoStep(s, sid, req, t, ReadPending, true, Step(sid), ReadTerminal);
    GotoStep(s, sid, req, t, ReadTerminal, true, Step(sid), Decide);
    hide Next, With;
    ls := LeadsOn(Next, start, before, With(s, sid, req, t, ReadReceipt, true), Step(sid),
                  With(s, sid, req, t, SelectGrant, true));
    ls := LeadsOn(Next, start, ls, With(s, sid, req, t, SelectGrant, true), Step(sid),
                  With(s, sid, req, t, ReadPending, true));
    ls := LeadsOn(Next, start, ls, With(s, sid, req, t, ReadPending, true), Step(sid),
                  With(s, sid, req, t, ReadTerminal, true));
    ls := LeadsOn(Next, start, ls, With(s, sid, req, t, ReadTerminal, true), Step(sid),
                  With(s, sid, req, t, Decide, true));
  }

  /** The state after the transaction committed its write. */
  function Served(s: State, sid: Sid, req: Request, threshold: real, w: Write): State {
    s.(db := Written(s.db, req.Key(), req.args, w),
       sessions := s.sessions[sid := Session(req, req.Key(), threshold, Done(WriteAnswer(w)))])
  }

  lemma Commits(s: State, sid: Sid, req: Request, t: real, w: Write)
    requires req.Key() !in s.locks && req.Key() !in s.rowLocks
    ensures Next(With(s, sid, req, t, CommitWrite(w), true), Step(sid)) == Some(Served(s, sid, req, t, w))
  {
    hide KeyOf, Written, WriteAnswer, GatedDecision;
    var a, b := With(s, sid, req, t, CommitWrite(w), true), Served(s, sid, req, t, w);
    assert At(a, sid, Done(WriteAnswer(w))).sessions == b.sessions;
    assert a.locks - {req.Key()} == b.locks;
  }

  /** The labels of a decision lead to what the rule says. */
  lemma Decides(s: State, sid: Sid, req: Request, t: real, readable: bool, setting: Option<Num>)
    ensures var (d, snapshot) :=
        GatedDecision(req.action, req.amount, ReadingOf(s, req.action, req.args, readable), t, AutoMax(setting));
      Next(With(s, sid, req, t, Decide, true), GateMachine.Rule(sid, readable, setting))
      == Some(With(s, sid, req, t, if d.Auto? then RunByRule(d.evidence) else InsertTicket(snapshot), true))
  {
    hide KeyOf, GatedDecision, AutoMax, Latest, OwnerOf;
    var (d, snapshot) :=
      GatedDecision(req.action, req.amount, ReadingOf(s, req.action, req.args, readable), t, AutoMax(setting));
    var pc := if d.Auto? then RunByRule(d.evidence) else InsertTicket(snapshot);
    GotoStep(s, sid, req, t, Decide, true, GateMachine.Rule(sid, readable, setting), pc);
  }

  /** When the assessments cannot be read, an amount below the threshold is executed by the rule. */
  lemma UnreadPays(s: State, sid: Sid, req: Request, row: Option<Option<Num>>, setting: Option<Num>, result: string)
    returns (ls: seq<Label>)
    requires Free(s, sid, req) && req.Key() !in s.db.rows
    requires req.amount.Some? && req.amount.value.Finite? && req.amount.value.r < Threshold(row) && Threshold(row) > 0.0
    ensures var ev := Evidence(req.amount.value.r, Threshold(row), Unread, AutoMax(setting));
      Leads(Next, s, ls, Served(s, sid, req, Threshold(row), AutoInsert(Receipt(result, true), ev)))
  {
    var t := Threshold(row);
    var ev := Evidence(req.amount.value.r, t, Unread, AutoMax(setting));
    AutoIff(req.action, req.amount, Unread, t, AutoMax(setting));
    Decides(s, sid, req, t, false, setting);
    assert ReadingOf(s, req.action, req.args, false) == Unread;
    hide KeyOf, GatedDecision, Leads, Threshold, AutoMax, AmountOf, ReadingOf;
    GotoStep(s, sid, req, t, RunByRule(ev), true, Run(sid, Returns(result)), InsertUsed(ev, result));
    GotoStep(s, sid, req, t, InsertUsed(ev, result), true, Step(sid), CommitWrite(AutoInsert(Receipt(result, true), ev)));
    Commits(s, sid, req, t, AutoInsert(Receipt(result, true), ev));
    ls := Opens(s, sid, req, row);
    hide Next, With, Served;
    ls := PassesBranches(s, sid, req, t, s, ls);
    ls := LeadsOn(Next, s, ls, With(s, sid, req, t, Decide, true), GateMachine.Rule(sid, false, setting),
                  With(s, sid, req, t, RunByRule(ev), true));
    ls := LeadsOn(Next, s, ls, With(s, sid, req, t, RunByRule(ev), true), Run(sid, Returns(result)),
                  With(s, sid, req, t, InsertUsed(ev, result), true));
    ls := LeadsOn(Next, s, ls, With(s, sid, req, t, InsertUsed(ev, result), true), Step(sid),
                  With(s, sid, req, t, CommitWrite(AutoInsert(Receipt(result, true), ev)), true));
    ls := LeadsOn(Next, s, ls, With(s, sid, req, t, CommitWrite(AutoInsert(Receipt(result, true), ev)), true), Step(sid),
                  Served(s, sid, req, t, AutoInsert(Receipt(result, true), ev)));
  }

  /** A concrete run: the borrower's only assessment is red, it cannot be read, and the rule pays. */
  lemma RedBorrowerIsPaid() returns (s: State, ls: seq<Label>)
    ensures Initial(s) && IsRun(Next, s, ls)
    ensures var t := End(Next, s, ls);
      && |t.db.executed| == 1 && t.db.executed[0].authority.Rule?
      && var owner := OwnerOf(t.loanOwner, "loan_id", t.db.executed[0].args);
         owner.Some? && HasLane(Latest(t.ledger, owner.value), Red)
  {
    var args: Args := map["loan_id" := Text("L1"), "amount" := Int(1)];
    var req := Request(0, Disburse, args, Some(Finite(1.0)));
    var a := Assessment("C1", Customer, 1.0, Red, [Criterion("cic", Block)]);
    s := State(EMPTY, {0}, {}, [], map["L1" := "C1"], map[], map[], map[], map[], {});
    var s1 := s.(ledger := [a]);
    assert AnyAt(a.criteria, Block) by {
      assert a.criteria[0].level == Block;
    }
    assert s.ledger + [a] == [a];
    assert Next(s, Classify(a)) == Some(s1);
    assert OwnerOf(s1.loanOwner, "loan_id", args) == Some("C1");
    assert HasLane(Latest(s1.ledger, "C1"), Red);
    assert Free(s1, 0, req);
    hide KeyOf, AmountOf, Next, Free, OwnerOf, Latest;
    Stays(Next, s);
    var first := LeadsOn(Next, s, [], s, Classify(a), s1);
    var rest := UnreadPays(s1, 0, req, None, None, "ok");
    var ev := Evidence(1.0, Threshold(None), Unread, AutoMax(None));
    ls := LeadsThrough(Next, s, first, s1, rest, Served(s1, 0, req, Threshold(None), AutoInsert(Receipt("ok", true), ev)));
  }

  // ------------------------------------------------------------ a ticket and its execution

  lemma ClosedRuleAsks(s: State, sid: Sid, req: Request) returns (snapshot: Snapshot)
    ensures Next(With(s, sid, req, 0.0, Decide, true), GateMachine.Rule(sid, true, None))
         == Some(With(s, sid, req, 0.0, InsertTicket(snapshot), true))
  {
    Decides(s, sid, req, 0.0, true, None);
    hide KeyOf, Next, ReadingOf, AutoMax;
    var (d, snap) := GatedDecision(req.action, req.amount, ReadingOf(s, req.action, req.args, true), 0.0, AutoMax(None));
    snapshot := snap;
  }

  /** With the rule switched off a transaction opens a ticket. */
  lemma OpensTicket(s: State, sid: Sid, req: Request) returns (ls: seq<Label>, snapshot: Snapshot)
    requires Free(s, sid, req) && req.Key() !in s.db.rows
    ensures OfSessions(ls) && Leads(Next, s, ls, Served(s, sid, req, 0.0, PendingInsert(snapshot)))
  {
    snapshot := ClosedRuleAsks(s, sid, req);
    hide KeyOf, GatedDecision, Leads, AmountOf, ReadingOf;
    GotoStep(s, sid, req, 0.0, InsertTicket(snapshot), true, Step(sid), CommitWrite(PendingInsert(snapshot)));
    Commits(s, sid, req, 0.0, PendingInsert(snapshot));
    ls := Opens(s, sid, req, Some(None));
    assert Threshold(Some(None)) == 0.0;
    hide Next, With, Served;
    ls := PassesBranches(s, sid, req, 0.0, s, ls);
    ls := LeadsOn(Next, s, ls, With(s, sid, req, 0.0, Decide, true), GateMachine.Rule(sid, true, None),
                  With(s, sid, req, 0.0, InsertTicket(snapshot), true));
    ls := LeadsOn(Next, s, ls, With(s, sid, req, 0.0, InsertTicket(snapshot), true), Step(sid),
                  With(s, sid, req, 0.0, CommitWrite(PendingInsert(snapshot)), true));
    ls := LeadsOn(Next, s, ls, With(s, sid, req, 0.0, CommitWrite(PendingInsert(snapshot)), true), Step(sid),
                  Served(s, sid, req, 0.0, PendingInsert(snapshot)));
  }

  /** The state with the grant of the key selected FOR UPDATE. */
  function Holding(s: State, sid: Sid, req: Request, pc: Pc): State {
    With(s, sid, req, 0.0, pc, true).(rowLocks := s.rowLocks[req.Key() := sid])
  }

  lemma HoldingStep(s: State, sid: Sid, req: Request, pc: Pc, l: Label, pc2: Pc)
    requires InSession(l) && l.sid == sid && MoveOf(Holding(s, sid, req, pc), l) == Some(Goto(pc2))
    ensures Next(Holding(s, sid, req, pc), l) == Some(Holding(s, sid, req, pc2))
  {
    hide MoveOf, KeyOf;
    assert At(Holding(s, sid, req, pc), sid, pc2).sessions == Holding(s, sid, req, pc2).sessions;
  }

  lemma SelectsGrant(s: State, sid: Sid, req: Request)
    requires req.Key() !in s.rowLocks && HasStatus(Get(s.db.rows, req.Key()), Approved)
    ensures Next(With(s, sid, req, 0.0, SelectGrant, true), Step(sid)) == Some(Holding(s, sid, req, RunGranted))
  {
    hide KeyOf, GatedDecision;
    assert At(With(s, sid, req, 0.0, SelectGrant, true), sid, RunGranted).sessions
        == Holding(s, sid, req, RunGranted).sessions;
  }

  lemma CommitsGrant(s: State, sid: Sid, req: Request, receipt: Receipt)
    requires req.Key() !in s.locks && req.Key() !in s.rowLocks
    ensures Next(Holding(s, sid, req, CommitWrite(Finalize(receipt))), Step(sid))
         == Some(Served(s, sid, req, 0.0, Finalize(receipt)))
  {
    hide KeyOf, Written, WriteAnswer, GatedDecision;
    var w := Finalize(receipt);
    var a, b := Holding(s, sid, req, CommitWrite(w)), Served(s, sid, req, 0.0, w);
    assert At(a, sid, Done(WriteAnswer(w))).sessions == b.sessions;
    assert a.locks - {req.Key()} == b.locks && a.rowLocks - {req.Key()} == b.rowLocks;
  }

  /** The statements of a transaction that executes the grant of its key. */
  lemma GrantSteps(s: State, sid: Sid, req: Request, result: string)
    requires Free(s, sid, req) && HasStatus(Get(s.db.rows, req.Key()), Approved)
    ensures var receipt := Receipt(result, false);
      && Next(With(s, sid, req, 0.0, ReadReceipt, true), Step(sid)) == Some(With(s, sid, req, 0.0, SelectGrant, true))
      && Next(With(s, sid, req, 0.0, SelectGrant, true), Step(sid)) == Some(Holding(s, sid, req, RunGranted))
      && Next(Holding(s, sid, req, RunGranted), Run(sid, Returns(result)))
         == Some(Holding(s, sid, req, FinalizeReceipt(result)))
      && Next(Holding(s, sid, req, FinalizeReceipt(result)), Step(sid))
         == Some(Holding(s, sid, req, CommitWrite(Finalize(receipt))))
      && Next(Holding(s, sid, req, CommitWrite(Finalize(receipt))), Step(sid))
         == Some(Served(s, sid, req, 0.0, Finalize(receipt)))
  {
    hide KeyOf, GatedDecision, AmountOf, Next, Served;
    GotoStep(s, sid, req, 0.0, ReadReceipt, true, Step(sid), SelectGrant);
    SelectsGrant(s, sid, req);
    HoldingStep(s, sid, req, RunGranted, Run(sid, Returns(result)), FinalizeReceipt(result));
    HoldingStep(s, sid, req, FinalizeReceipt(result), Step(sid), CommitWrite(Finalize(Receipt(result, false))));
    CommitsGrant(s, sid, req, Receipt(result, false));
  }

  /** A transaction executes an approved row. */
  lemma ExecutesGrant(s: State, sid: Sid, req: Request, result: string) returns (ls: seq<Label>)
    requires Free(s, sid, req) && HasStatus(Get(s.db.rows, req.Key()), Approved)
    ensures OfSessions(ls) && Leads(Next, s, ls, Served(s, sid, req, 0.0, Finalize(Receipt(result, false))))
  {
    var receipt := Receipt(result, false);
    hide Leads, Next, With, Served, Holding, Free;
    GrantSteps(s, sid, req, result);
    ls := Opens(s, sid, req, Some(None));
    assert Threshold(Some(None)) == 0.0;
    ls := LeadsOn(Next, s, ls, With(s, sid, req, 0.0, ReadReceipt, true), Step(sid),
                  With(s, sid, req, 0.0, SelectGrant, true));
    ls := LeadsOn(Next, s, ls, With(s, sid, req, 0.0, SelectGrant, true), Step(sid), Holding(s, sid, req, RunGranted));
    ls := LeadsOn(Next, s, ls, Holding(s, sid, req, RunGranted), Run(sid, Returns(result)),
                  Holding(s, sid, req, FinalizeReceipt(result)));
    ls := LeadsOn(Next, s, ls, Holding(s, sid, req, FinalizeReceipt(result)), Step(sid),
                  Holding(s, sid, req, CommitWrite(Finalize(receipt))));
    ls := LeadsOn(Next, s, ls, Holding(s, sid, req, CommitWrite(Finalize(receipt))), Step(sid),
                  Served(s, sid, req, 0.0, Finalize(receipt)));
  }
}
