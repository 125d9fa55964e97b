/** What the transactions of the interleaved gate answer, and that an executed key keeps its receipt. */
module GateAnswers {
  import opened Wrappers
  import opened Machines
  import opened Payload
  import opened Verdict
  import opened Approvals
  import opened GateMachine
  import GateSafety

  predicate HasReceipt(row: Option<Row>, receipt: Receipt) {
    HasStatus(row, Used) && row.value.receipt == Some(receipt)
  }

  /** The receipt that an answer shows. */
  function Shown(r: Response): Option<Receipt> {
    match r
    case Replay(receipt) => Some(receipt)
    case Executed(receipt) => Some(receipt)
    case _ => None
  }

  function AnswerOf(pc: Pc): Option<Response> {
    match pc
    case CommitRead(r) => Some(r)
    case Done(r) => Some(r)
    case _ => None
  }

  /** An answer with a receipt shows the receipt of the used row. */
  predicate AnswerFits(row: Option<Row>, pc: Pc) {
    var r := AnswerOf(pc);
    r.Some? && Shown(r.value).Some? ==> HasReceipt(row, Shown(r.value).value)
  }

  ghost predicate AnswersOk(s: State) {
    forall sid :: sid in s.sessions ==> AnswerFits(Get(s.db.rows, s.sessions[sid].key), s.sessions[sid].pc)
  }

  ghost predicate Inv(s: State) {
    GateSafety.Inv(s) && AnswersOk(s)
  }

  // ------------------------------------------------------------ one step

  /** What one statement answers. */
  lemma MoveAnswers(v: View, keyFree: bool, rowFree: bool, reading: Reading, l: Label)
    requires InSession(l) && Advance(v, keyFree, rowFree, reading, l).Some?
    ensures var m := Advance(v, keyFree, rowFree, reading, l).value;
      && (m.Goto? ==> AnswerFits(v.row, m.pc) && !m.pc.Done?)
      && (m.Publish? ==> v.se.pc == CommitWrite(m.w))
      && (m.Close? ==> v.se.pc == CommitRead(m.r) || m.r.Refuses())
  {
    hide GatedDecision;
  }

  lemma ReceiptStays(a: Db, b: Db, k: Key, receipt: Receipt)
    requires TablesMove(a, b) && HasReceipt(Get(a.rows, k), receipt)
    ensures HasReceipt(Get(b.rows, k), receipt)
  {
  }

  lemma AnswerStays(a: Db, b: Db, k: Key, pc: Pc)
    requires TablesMove(a, b) && AnswerFits(Get(a.rows, k), pc)
    ensures AnswerFits(Get(b.rows, k), pc)
  {
    hide TablesMove, HasReceipt, Get;
    if AnswerOf(pc).Some? && Shown(AnswerOf(pc).value).Some? {
      ReceiptStays(a, b, k, Shown(AnswerOf(pc).value).value);
    }
  }

  /** What a commit answers is what it wrote. */
  lemma WriteFits(db: Db, k: Key, args: Args, w: Write)
    requires w.Finalize? ==> k in db.rows
    ensures AnswerFits(Get(Written(db, k, args, w).rows, k), Done(WriteAnswer(w)))
  {
  }

  /** A statement changes its own session only, and not its request. */
  lemma PerformFrame(s: State, sid: Sid, m: Move)
    requires sid in s.sessions
    ensures var t := Perform(s, sid, m);
      && sid in t.sessions && t.sessions == s.sessions[sid := t.sessions[sid]]
      && t.sessions[sid].key == s.sessions[sid].key && t.sessions[sid].req == s.sessions[sid].req
  {
    hide Written, WriteAnswer;
  }

  lemma SessionFrame(s: State, l: Label)
    requires InSession(l) && SessionStep(s, l).Some?
    ensures l.sid in s.sessions
    ensures var t := SessionStep(s, l).value;
      && l.sid in t.sessions && t.sessions == s.sessions[l.sid := t.sessions[l.sid]]
      && t.sessions[l.sid].key == s.sessions[l.sid].key && t.sessions[l.sid].req == s.sessions[l.sid].req
  {
    hide Advance, ReadingOf, Perform;
    PerformFrame(s, l.sid, MoveOf(s, l).value);
  }

  /** What a step does to a session that is not the moving one: nothing, or it begins. */
  lemma OthersStay(s: State, l: Label, o: Sid)
    requires Next(s, l).Some? && !(InSession(l) && l.sid == o)
    ensures var t := Next(s, l).value;
      && (o in s.sessions ==> o in t.sessions && t.sessions[o] == s.sessions[o])
      && (o in t.sessions && o !in s.sessions ==> t.sessions[o].pc == CheckLinkFirst)
  {
    hide SessionStep, KeyOf, AmountOf;
    if InSession(l) {
      SessionFrame(s, l);
    }
  }

  /** What a statement leads to, in terms of the view it had. */
  lemma PerformAnswers(s: State, sid: Sid, m: Move)
    requires sid in s.sessions && AnswerFits(Get(s.db.rows, s.sessions[sid].key), s.sessions[sid].pc)
    requires m.Goto? ==> AnswerFits(Get(s.db.rows, s.sessions[sid].key), m.pc)
    requires m.Publish? && m.w.Finalize? ==> s.sessions[sid].key in s.db.rows
    requires m.Close? ==> s.sessions[sid].pc == CommitRead(m.r) || m.r.Refuses()
    ensures var t := Perform(s, sid, m); AnswerFits(Get(t.db.rows, s.sessions[sid].key), t.sessions[sid].pc)
  {
    var se := s.sessions[sid];
    if m.Publish? {
      WriteFits(s.db, se.key, se.req.args, m.w);
    }
    hide Written, WriteAnswer, HasReceipt, Get;
  }

  lemma MoveOfAnswers(s: State, l: Label)
    requires InSession(l) && MoveOf(s, l).Some?
    ensures l.sid in s.sessions
    ensures var m := MoveOf(s, l).value; var se := s.sessions[l.sid];
      && (m.Goto? ==> AnswerFits(Get(s.db.rows, se.key), m.pc))
      && (m.Publish? ==> se.pc == CommitWrite(m.w))
      && (m.Close? ==> se.pc == CommitRead(m.r) || m.r.Refuses())
  {
    hide Advance, ReadingOf, AnswerFits;
    var se := s.sessions[l.sid];
    var reading := if l.Rule? then ReadingOf(s, se.req.action, se.req.args, l.readable) else Unread;
    MoveAnswers(ViewOf(s, l.sid), se.key !in s.locks, se.key !in s.rowLocks, reading, l);
  }

  lemma MovedAnswers(s: State, l: Label)
    requires Inv(s) && InSession(l) && SessionStep(s, l).Some?
    ensures l.sid in s.sessions
    ensures var t := SessionStep(s, l).value;
      && l.sid in t.sessions
      && AnswerFits(Get(t.db.rows, s.sessions[l.sid].key), t.sessions[l.sid].pc)
  {
    hide GateSafety.Inv, MoveOf, Perform, AnswerFits, Get;
    MoveOfAnswers(s, l);
    var m := MoveOf(s, l).value;
    SessionFrame(s, l);
    if m.Publish? {
      FinalizeHasRow(s, l.sid, m.w);
    }
    PerformAnswers(s, l.sid, m);
  }

  lemma FinalizeHasRow(s: State, sid: Sid, w: Write)
    requires GateSafety.Inv(s) && sid in s.sessions && s.sessions[sid].pc == CommitWrite(w)
    ensures w.Finalize? ==> s.sessions[sid].key in s.db.rows
  {
    hide GateSafety.TablesOk, GateSafety.RequestsOk, GateSafety.LocksOk;
    assert GateSafety.Fits(ViewOf(s, sid));
  }

  lemma StepKeeps(s: State, l: Label)
    requires Inv(s) && Next(s, l).Some?
    ensures Inv(Next(s, l).value)
  {
    var t := Next(s, l).value;
    hide GateSafety.Inv, Next, SessionStep, AnswerFits;
    GateSafety.StepKeeps(s, l);
    GateSafety.StepMoves(s, l);
    forall sid | sid in t.sessions ensures AnswerFits(Get(t.db.rows, t.sessions[sid].key), t.sessions[sid].pc) {
      SessionAnswers(s, l, sid);
    }
  }

  lemma SessionAnswers(s: State, l: Label, sid: Sid)
    requires Inv(s) && Next(s, l).Some? && TablesMove(s.db, Next(s, l).value.db) && sid in Next(s, l).value.sessions
    ensures var t := Next(s, l).value; AnswerFits(Get(t.db.rows, t.sessions[sid].key), t.sessions[sid].pc)
  {
    hide GateSafety.Inv, SessionStep, TablesMove, KeyOf, AmountOf, HasReceipt, Get;
    var t := Next(s, l).value;
    if InSession(l) && l.sid == sid {
      MovedAnswers(s, l);
      SessionFrame(s, l);
    } else {
      OthersStay(s, l, sid);
      if sid in s.sessions {
        AnswerStays(s.db, t.db, s.sessions[sid].key, s.sessions[sid].pc);
      }
    }
  }

  lemma ReachableOk(s: State, ls: seq<Label>)
    requires Inv(s) && IsRun(Next, s, ls)
    ensures Inv(End(Next, s, ls))
  {
    hide Inv, Next;
    forall t, l | Inv(t) && Next(t, l).Some? ensures Inv(Next(t, l).value) {
      StepKeeps(t, l);
    }
    InvariantHolds(Next, Inv, s, ls);
  }

  lemma InitialOk(s: State)
    requires Initial(s)
    ensures Inv(s)
  {
    GateSafety.InitialOk(s);
    hide GateSafety.Inv;
  }

  // ------------------------------------------------------------ every run

  /** In every run, when a transaction has answered with a receipt, executed or replayed, then in every
      later state its row is used and holds that receipt, and every other transaction of the key that
      answers with a receipt answers with the same one. */
  lemma ReceiptIsForever(s: State, ls: seq<Label>, more: seq<Label>, sid: Sid, receipt: Receipt, other: Sid)
    requires Initial(s) && IsRun(Next, s, ls) && IsRun(Next, End(Next, s, ls), more)
    requires var t := End(Next, s, ls);
      && sid in t.sessions
      && (t.sessions[sid].pc == Done(Executed(receipt)) || t.sessions[sid].pc == Done(Replay(receipt)))
    ensures var k := End(Next, s, ls).sessions[sid].key; var u := End(Next, End(Next, s, ls), more);
      && HasReceipt(Get(u.db.rows, k), receipt)
      && (other in u.sessions && u.sessions[other].key == k && AnswerOf(u.sessions[other].pc).Some?
          ==> Shown(AnswerOf(u.sessions[other].pc).value) in [None, Some(receipt)])
  {
    hide GateSafety.Inv, Next, Initial, HasReceipt, Get;
    InitialOk(s);
    ReachableOk(s, ls);
    var t := End(Next, s, ls);
    var u := End(Next, t, more);
    ReachableOk(t, more);
    AnswerHolds(t, sid);
    GateSafety.RunMoves(t, more);
    ReceiptStays(t.db, u.db, t.sessions[sid].key, receipt);
    if other in u.sessions {
      AnswerHolds(u, other);
      if u.sessions[other].key == t.sessions[sid].key && AnswerOf(u.sessions[other].pc).Some? {
        OneReceipt(Get(u.db.rows, u.sessions[other].key), receipt, u.sessions[other].pc);
      }
    }
  }

  lemma AnswerHolds(s: State, sid: Sid)
    requires AnswersOk(s) && sid in s.sessions
    ensures AnswerFits(Get(s.db.rows, s.sessions[sid].key), s.sessions[sid].pc)
  {
  }

  lemma OneReceipt(row: Option<Row>, receipt: Receipt, pc: Pc)
    requires HasReceipt(row, receipt) && AnswerFits(row, pc) && AnswerOf(pc).Some?
    ensures Shown(AnswerOf(pc).value) in [None, Some(receipt)]
  {
  }

  // ------------------------------------------------------------ calls that come after the end of a row

  /** What a row that has come to its end answers to every further call. */
  function FinalAnswer(row: Option<Row>): Option<Response> {
    if HasStatus(row, Used) && row.value.receipt.Some? then Some(Replay(row.value.receipt.value))
    else if HasStatus(row, Rejected) then Some(Closed(false, row.value.reason))
    else if HasStatus(row, ExecFailed) then Some(Closed(true, row.value.reason))
    else None
  }

  /** Where a transaction that began after the end of its row can be; `failed` says whether a statement of it
      failed. */
  predicate Late(pc: Pc, answer: Response, failed: bool) {
    match pc
    case CheckLinkFirst => true
    case ReadThreshold => true
    case CheckLinkAgain => true
    case CheckOwner => true
    case TakeLock => true
    case ReadReceipt => true
    case SelectGrant => answer.Closed?
    case ReadPending => answer.Closed?
    case ReadTerminal => answer.Closed?
    case CommitRead(r) => r == answer
    case Done(r) => r == answer || r.PreassessmentOnly? || r.NotYourLoan? || (r.GatedError? && failed)
    case _ => false
  }

  lemma LateMoves(v: View, keyFree: bool, rowFree: bool, reading: Reading, l: Label, answer: Response, failed: bool)
    requires InSession(l) && Advance(v, keyFree, rowFree, reading, l).Some?
    requires FinalAnswer(v.row) == Some(answer) && Late(v.se.pc, answer, failed)
    ensures match Advance(v, keyFree, rowFree, reading, l).value
      case Goto(pc) => Late(pc, answer, failed)
      case Configure(_) => true
      case LockKey => true
      case LockRow => false
      case Publish(_) => false
      case Close(r) => Late(Done(r), answer, failed || l.Fail?)
  {
    hide GatedDecision;
  }

  lemma LateAnyway(answer: Response, failed: bool)
    ensures Late(CheckLinkAgain, answer, failed) && Late(ReadReceipt, answer, failed)
    ensures forall p: Pc :: Late(p, answer, failed) ==> Late(p, answer, true)
  {
  }

  lemma LateStep(s: State, l: Label, sid: Sid, answer: Response, failed: bool)
    requires InSession(l) && l.sid == sid && SessionStep(s, l).Some? && sid in s.sessions
    requires FinalAnswer(Get(s.db.rows, s.sessions[sid].key)) == Some(answer) && Late(s.sessions[sid].pc, answer, failed)
    ensures var t := SessionStep(s, l).value; sid in t.sessions && Late(t.sessions[sid].pc, answer, failed || l.Fail?)
  {
    hide Advance, ReadingOf, FinalAnswer, Written, WriteAnswer, Late;
    LateAnyway(answer, failed);
    var se := s.sessions[sid];
    var reading := if l.Rule? then ReadingOf(s, se.req.action, se.req.args, l.readable) else Unread;
    LateMoves(ViewOf(s, sid), se.key !in s.locks, se.key !in s.rowLocks, reading, l, answer, failed);
  }

  /** The transaction, once it exists with this key, is late. */
  ghost predicate Follows(s: State, sid: Sid, k: Key, answer: Response, failed: bool) {
    && Inv(s) && FinalAnswer(Get(s.db.rows, k)) == Some(answer)
    && (sid in s.sessions && s.sessions[sid].key == k ==> Late(s.sessions[sid].pc, answer, failed))
  }

  lemma StepsMove(s: State, l: Label)
    requires Inv(s) && Next(s, l).Some?
    ensures TablesMove(s.db, Next(s, l).value.db)
  {
    hide GateSafety.Inv, Next, TablesMove;
    GateSafety.StepMoves(s, l);
  }

  lemma AnswerIsFinal(a: Db, b: Db, k: Key, answer: Response)
    requires TablesMove(a, b) && FinalAnswer(Get(a.rows, k)) == Some(answer)
    ensures FinalAnswer(Get(b.rows, k)) == Some(answer)
  {
  }

  lemma LateStays(s: State, l: Label, sid: Sid, k: Key, answer: Response, failed: bool)
    requires Next(s, l).Some? && FinalAnswer(Get(s.db.rows, k)) == Some(answer)
    requires sid in s.sessions && s.sessions[sid].key == k ==> Late(s.sessions[sid].pc, answer, failed)
    ensures var t := Next(s, l).value;
      sid in t.sessions && t.sessions[sid].key == k ==> Late(t.sessions[sid].pc, answer, failed || l == Fail(sid))
  {
    hide SessionStep, FinalAnswer, Get;
    if InSession(l) && l.sid == sid {
      SessionFrame(s, l);
      if s.sessions[sid].key == k {
        LateStep(s, l, sid, answer, failed);
      }
    } else {
      hide Next;
      OthersStay(s, l, sid);
    }
  }

  lemma FollowsKeeps(s: State, l: Label, sid: Sid, k: Key, answer: Response, failed: bool)
    requires Follows(s, sid, k, answer, failed) && Next(s, l).Some?
    ensures Follows(Next(s, l).value, sid, k, answer, failed || l == Fail(sid))
  {
    hide Inv, Next, FinalAnswer, TablesMove, Late, Get;
    StepKeeps(s, l);
    StepsMove(s, l);
    AnswerIsFinal(s.db, Next(s, l).value.db, k, answer);
    LateStays(s, l, sid, k, answer, failed);
  }

  lemma {:induction false} FollowsOn(s: State, ls: seq<Label>, sid: Sid, k: Key, answer: Response, failed: bool)
    requires Follows(s, sid, k, answer, failed) && IsRun(Next, s, ls)
    ensures Follows(End(Next, s, ls), sid, k, answer, failed || Fail(sid) in ls)
    decreases |ls|
  {
    hide Next, Follows;
    if ls != [] {
      FollowsKeeps(s, ls[0], sid, k, answer, failed);
      FollowsOn(Next(s, ls[0]).value, ls[1..], sid, k, answer, failed || ls[0] == Fail(sid));
      assert forall l :: l in ls <==> l == ls[0] || l in ls[1..];
    }
  }

  /** A transaction that begins after the end of its row: for a used row it replays the receipt, for a rejected
      or failed one it answers that the request is closed, with the reason. Otherwise its conversation is
      linked, the loan is somebody else's, or a statement of it failed. It never executes, waits or opens a
      ticket, and it gives no error of its own. */
  lemma LateCallReplays(s: State, ls: seq<Label>, sid: Sid, k: Key, answer: Response)
    requires Inv(s) && IsRun(Next, s, ls) && FinalAnswer(Get(s.db.rows, k)) == Some(answer) && sid !in s.sessions
    ensures var t := End(Next, s, ls);
      sid in t.sessions && t.sessions[sid].key == k && t.sessions[sid].pc.Done? ==>
        var r := t.sessions[sid].pc.r;
        || r == answer || r == PreassessmentOnly || r == NotYourLoan || (r == GatedError && Fail(sid) in ls)
  {
    hide Inv, Next, FinalAnswer;
    FollowsOn(s, ls, sid, k, answer, false);
  }
}
