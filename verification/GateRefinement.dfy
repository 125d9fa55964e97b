/**
 The interleaved gate is serializable: its committed tables and the answers it gives are those of
 one-step calls taken one after another, each at the moment it reads its answer or commits its write.
 */
module GateRefinement {
  import opened Wrappers
  import opened Machines
  import opened Payload
  import opened Lanes
  import opened Verdict
  import opened Approvals
  import opened GateMachine
  import opened GateSafety

  /** The one-step machine: the tables and what each call was answered. */
  datatype Simple = Simple(db: Db, answers: map<Sid, Response>)

  datatype OneStep =
    | Called(sid: Sid, req: Request, inner: Inner, decision: (Decision, Snapshot))
    | Answered(sid: Sid, r: Refusal)
    | Settled(key: Key, approve: bool, decider: string, reason: Option<string>)
    | Claimed(key: Key)
    | Marked(key: Key)

  function SimpleNext(a: Simple, o: OneStep): Simple {
    match o
    case Called(sid, req, inner, decision) =>
      var (db, r) := Call(a.db, req, inner, decision);
      Simple(db, a.answers[sid := r])
    case Answered(sid, r) => a.(answers := a.answers[sid := r])
    case Settled(k, approve, decider, reason) => a.(db := DecideRow(a.db, k, approve, decider, reason).0)
    case Claimed(k) => a.(db := ClaimRow(a.db, k).0)
    case Marked(k) => a.(db := MarkRow(a.db, k))
  }

  function SimpleRun(a: Simple, os: seq<OneStep>): Simple
    decreases |os|
  {
    if os == [] then a else SimpleRun(SimpleNext(a, os[0]), os[1..])
  }

  function Answer(pc: Pc): Option<Response> {
    match pc
    case CommitRead(r) => Some(r)
    case Done(r) => Some(r)
    case _ => None
  }

  function Answers(sessions: map<Sid, Session>): map<Sid, Response> {
    map sid | sid in sessions && Answer(sessions[sid].pc).Some? :: Answer(sessions[sid].pc).value
  }

  function Abs(s: State): Simple {
    Simple(s.db, Answers(s.sessions))
  }

  const NO_DECISION: (Decision, Snapshot) := (Verdict.Human, Snapshot(None, None, HumanReview))

  /** The one-step call that a commit stands for. */
  function CommittedCall(sid: Sid, req: Request, w: Write): OneStep {
    match w
    case Finalize(receipt) => Called(sid, req, Returns(receipt.result), NO_DECISION)
    case AutoInsert(receipt, ev) => Called(sid, req, Returns(receipt.result), (Auto(ev), NO_DECISION.1))
    case PendingInsert(snapshot) => Called(sid, req, Raises, (Verdict.Human, snapshot))
  }

  /** What a statement is to the one-step machine: nothing, a call or a refusal. */
  function MoveImage(sid: Sid, se: Session, m: Move): Option<OneStep> {
    match m
    case Goto(pc) => if pc.CommitRead? then Some(Called(sid, se.req, Raises, NO_DECISION)) else None
    case Close(r) => if r.Refuses() && se.pc != CommitRead(r) then Some(Answered(sid, r)) else None
    case Publish(w) => Some(CommittedCall(sid, se.req, w))
    case _ => None
  }

  function Image(s: State, l: Label): Option<OneStep>
    requires Next(s, l).Some?
  {
    if l.Settle? then Some(Settled(l.key, l.approve, l.decider, l.reason))
    else if l.ClaimAttempt? then Some(Claimed(l.key))
    else if l.MarkFailed? then Some(Marked(l.key))
    else if InSession(l) then MoveImage(l.sid, s.sessions[l.sid], MoveOf(s, l).value)
    else None
  }

  function Shadow(a: Simple, o: Option<OneStep>): Simple {
    if o.Some? then SimpleNext(a, o.value) else a
  }

  // ------------------------------------------------------------ one step

  lemma AnswersMoved(m: map<Sid, Session>, sid: Sid, se: Session)
    requires sid in m && Answer(m[sid].pc).Some? ==> Answer(se.pc).Some?
    ensures Answers(m[sid := se]) ==
      if Answer(se.pc).Some? then Answers(m)[sid := Answer(se.pc).value] else Answers(m)
  {
    hide Answer;
    var t := m[sid := se];
    forall o | o in Answers(m) ensures o in Answers(t) {
      assert o in m && Answer(m[o].pc).Some?;
    }
  }

  lemma AnswersKept(m: map<Sid, Session>, sid: Sid, r: Response)
    requires sid in m && m[sid].pc == CommitRead(r)
    ensures Answers(m)[sid := r] == Answers(m)
  {
    assert Answer(m[sid].pc) == Some(r);
  }

  /** A read that finds an answer is a one-step call with that answer and no effect. */
  lemma HitIsCall(db: Db, se: Session, linked: bool, keyFree: bool, rowFree: bool, r: Response)
    requires se.key == se.req.Key()
    requires Statement(se, Get(db.rows, se.key), linked, keyFree, rowFree) == Some(Goto(CommitRead(r)))
    ensures Call(db, se.req, Raises, NO_DECISION) == (db, r)
  {
    hide KeyOf;
  }

  /** A commit is a one-step call with the committed effect. */
  lemma CommitIsCall(s: State, sid: Sid, w: Write)
    requires sid in s.sessions && s.sessions[sid].key == s.sessions[sid].req.Key()
    requires Fits(ViewOf(s, sid)) && s.sessions[sid].pc == CommitWrite(w)
    ensures var se := s.sessions[sid]; var o := CommittedCall(sid, se.req, w);
      Call(s.db, o.req, o.inner, o.decision) == (Written(s.db, se.key, se.req.args, w), WriteAnswer(w))
  {
    hide KeyOf, EvidenceHolds;
    match w
    case Finalize(receipt) => assert receipt == Receipt(receipt.result, false);
    case AutoInsert(receipt, ev) => assert receipt == Receipt(receipt.result, true);
    case PendingInsert(snapshot) =>
  }

  lemma FitsOf(s: State, sid: Sid)
    requires Inv(s) && sid in s.sessions
    ensures Fits(ViewOf(s, sid)) && s.sessions[sid].key == s.sessions[sid].req.Key()
  {
    hide Fits, TablesOk, LocksOk, KeyOf, AmountOf;
  }

  /** Only a reading statement leads to an answer that is still to be committed, and no statement takes an
      answer back. */
  lemma MovesOnAnswers(s: State, l: Label)
    requires InSession(l) && MoveOf(s, l).Some?
    ensures l.sid in s.sessions
    ensures var m := MoveOf(s, l).value; var pc := s.sessions[l.sid].pc;
      && (m.Publish? ==> pc == CommitWrite(m.w))
      && (m.Close? || Answer(pc).None?)
      && (m.Close? ==> pc == CommitRead(m.r) || m.r.Refuses())
      && (m.Goto? && m.pc.CommitRead? ==> l.Step?)
      && (m.Goto? ==> !m.pc.Done?)
  {
    hide GatedDecision, ReadingOf;
  }

  lemma PerformRefines(s: State, sid: Sid, m: Move)
    requires sid in s.sessions && Fits(ViewOf(s, sid)) && s.sessions[sid].key == s.sessions[sid].req.Key()
    requires m.Publish? ==> s.sessions[sid].pc == CommitWrite(m.w)
    requires m.Close? || Answer(s.sessions[sid].pc).None?
    requires m.Close? ==> s.sessions[sid].pc == CommitRead(m.r) || m.r.Refuses()
    requires m.Goto? ==> !m.pc.Done?
    requires m.Goto? && m.pc.CommitRead? ==> Call(s.db, s.sessions[sid].req, Raises, NO_DECISION) == (s.db, m.pc.r)
    ensures Abs(Perform(s, sid, m)) == Shadow(Abs(s), MoveImage(sid, s.sessions[sid], m))
  {
    hide Fits, Call, KeyOf, Answers, Written, WriteAnswer;
    var t := Perform(s, sid, m);
    AnswersMoved(s.sessions, sid, t.sessions[sid]);
    assert t.sessions == s.sessions[sid := t.sessions[sid]];
    if m.Publish? {
      CommitIsCall(s, sid, m.w);
    } else if m.Close? && s.sessions[sid].pc == CommitRead(m.r) {
      AnswersKept(s.sessions, sid, m.r);
    }
  }

  lemma SessionRefines(s: State, l: Label)
    requires InSession(l) && Inv(s) && SessionStep(s, l).Some?
    ensures Abs(SessionStep(s, l).value) == Shadow(Abs(s), Image(s, l))
  {
    hide Inv, Fits, Perform, Call, KeyOf, Abs, MoveImage, GatedDecision, ReadingOf;
    MovesOnAnswers(s, l);
    FitsOf(s, l.sid);
    var m := MoveOf(s, l).value;
    var se := s.sessions[l.sid];
    if m.Goto? && m.pc.CommitRead? {
      HitIsCall(s.db, se, ViewOf(s, l.sid).linked, se.key !in s.locks, se.key !in s.rowLocks, m.pc.r);
    }
    PerformRefines(s, l.sid, m);
  }

  /** Every step of the interleaved gate is a one-step call, a refusal, an update or nothing at all. */
  lemma StepRefines(s: State, l: Label)
    requires Inv(s) && Next(s, l).Some?
    ensures Abs(Next(s, l).value) == Shadow(Abs(s), Image(s, l))
  {
    hide Inv, Answers, Call, KeyOf, AmountOf, SessionStep, MoveImage, MoveOf;
    if InSession(l) {
      SessionRefines(s, l);
    } else if l.Begin? {
      AnswersMoved(s.sessions, l.sid, Next(s, l).value.sessions[l.sid]);
    }
  }

  // ------------------------------------------------------------ every run

  ghost function Images(s: State, ls: seq<Label>): seq<OneStep>
    requires IsRun(Next, s, ls)
    decreases |ls|
  {
    if ls == [] then []
    else
      var rest := Images(Next(s, ls[0]).value, ls[1..]);
      match Image(s, ls[0])
      case Some(o) => [o] + rest
      case None => rest
  }

  /** Serializability: any interleaving commits the tables and gives the answers of a sequence of one-step
      calls and single-row updates. */
  lemma {:induction false} Serializable(s: State, ls: seq<Label>)
    requires Inv(s) && IsRun(Next, s, ls)
    ensures SimpleRun(Abs(s), Images(s, ls)) == Abs(End(Next, s, ls))
    decreases |ls|
  {
    hide Inv, Next, Image, Abs, SimpleNext;
    if ls != [] {
      var t := Next(s, ls[0]).value;
      StepRefines(s, ls[0]);
      StepKeeps(s, ls[0]);
      Serializable(t, ls[1..]);
      var o := Image(s, ls[0]);
      var rest := Images(t, ls[1..]);
      if o.Some? {
        assert ([o.value] + rest)[1..] == rest;
      }
    }
  }
}
