/**
 `_gated_txn` of backend/app/orch/gated.py, statement by statement, with every other writer of the
 approvals ledger interleaved between its statements.

 PostgreSQL is taken to commit and roll back atomically, to let each statement read what is committed,
 to hold the advisory lock of a key until the transaction ends, to block updates of a row that another
 transaction selected FOR UPDATE, and to refuse a second row with the same idempotency key.
 */
module GateMachine {
  import opened Wrappers
  import opened Machines
  import opened Payload
  import opened Lanes
  import opened Verdict
  import opened Approvals

  type Sid = nat

  /** Statements run inside a transaction and not committed yet. */
  datatype Write =
    | Finalize(receipt: Receipt)
    | AutoInsert(receipt: Receipt, ev: Evidence)
    | PendingInsert(snapshot: Snapshot)

  /** What the transaction does next. */
  datatype Pc =
    | CheckLinkFirst
    | ReadThreshold
    | CheckLinkAgain
    | CheckOwner
    | TakeLock
    | ReadReceipt
    | SelectGrant
    | ReadPending
    | ReadTerminal
    | Decide
    | RunGranted
    | FinalizeReceipt(result: string)
    | RunByRule(ev: Evidence)
    | InsertUsed(ev: Evidence, result: string)
    | InsertTicket(snapshot: Snapshot)
    | CommitWrite(w: Write)
    | CommitRead(r: Response)
    | Done(r: Response)

  /** A running transaction; its key is computed once from the request. */
  datatype Session = Session(req: Request, key: Key, threshold: real, pc: Pc)

  datatype State = State(
    db: Db,
    convs: set<ConvId>,
    linked: set<ConvId>,
    ledger: seq<Assessment>,
    loanOwner: map<string, string>,
    applicationOwner: map<string, string>,
    sessions: map<Sid, Session>,
    locks: map<Key, Sid>,
    rowLocks: map<Key, Sid>,
    approved: set<Key>)

  datatype Label =
    | Begin(sid: Sid, req: Request)
    | Step(sid: Sid)
    | ReadSetting(sid: Sid, row: Option<Option<Num>>)
    | Owner(sid: Sid, refused: bool)
    | Run(sid: Sid, inner: Inner)
    | Rule(sid: Sid, readable: bool, setting: Option<Num>)
    | Fail(sid: Sid)
    | Settle(key: Key, approve: bool, decider: string, reason: Option<string>)
    | ClaimAttempt(key: Key)
    | MarkFailed(key: Key)
    | OpenConversation(conv: ConvId)
    | LinkConversation(conv: ConvId)
    | Classify(a: Assessment)

  predicate Initial(s: State) {
    && s.db == EMPTY
    && s.sessions == map[] && s.locks == map[] && s.rowLocks == map[]
    && s.linked == {} && s.ledger == [] && s.approved == {}
  }

  // ------------------------------------------------------------ the steps

  function At(s: State, sid: Sid, pc: Pc): State
    requires sid in s.sessions
  {
    s.(sessions := s.sessions[sid := s.sessions[sid].(pc := pc)])
  }

  /** The end of a transaction: its locks go, and the session holds its answer. */
  function Finish(s: State, sid: Sid, r: Response): State
    requires sid in s.sessions
  {
    var k := s.sessions[sid].key;
    At(s, sid, Done(r)).(
      locks := if k in s.locks && s.locks[k] == sid then s.locks - {k} else s.locks,
      rowLocks := if k in s.rowLocks && s.rowLocks[k] == sid then s.rowLocks - {k} else s.rowLocks)
  }

  /** The latest assessment of an owner: the last one of the ledger. */
  function Latest(ledger: seq<Assessment>, owner: string): Option<Found> {
    if ledger == [] then None
    else
      var n := |ledger| - 1;
      if ledger[n].owner == owner then Some(Found(n, ledger[n].lane)) else Latest(ledger[..n], owner)
  }

  /** The owner of the loan or application that a payload names. */
  function OwnerOf(owners: map<string, string>, field: string, args: Args): Option<string> {
    if field in args && args[field].Text? && args[field].s != "" && args[field].s in owners
       && owners[args[field].s] != ""
    then Some(owners[args[field].s])
    else None
  }

  /** `latest_verdict_for_action`. */
  function ReadingOf(s: State, action: Action, args: Args, readable: bool): Reading {
    var field := if action == Disburse then "loan_id" else "application_id";
    var owners := if action == Disburse then s.loanOwner else s.applicationOwner;
    var owner := OwnerOf(owners, field, args);
    if !readable then Unread
    else if owner.None? then Unnamed
    else OfOwner(owner.value, |s.ledger|, Latest(s.ledger, owner.value))
  }

  /** What one transaction sees of the state: its locks, the committed row of its key, the conversation's
      link and the assessments. */
  datatype View = View(se: Session, hasLock: bool, hasRow: bool, row: Option<Row>, known: bool, linked: bool,
                       ledger: seq<Assessment>, owners: map<string, string>)

  function ViewOf(s: State, sid: Sid): View
    requires sid in s.sessions
  {
    var se := s.sessions[sid];
    View(se, Get(s.locks, se.key) == Some(sid), Get(s.rowLocks, se.key) == Some(sid), Get(s.db.rows, se.key),
         se.req.conv in s.convs, se.req.conv in s.linked, s.ledger, s.loanOwner)
  }

  /** The effect of one statement. */
  datatype Move =
    | Goto(pc: Pc)
    | Configure(threshold: real)
    | LockKey
    | LockRow
    | Publish(w: Write)
    | Close(r: Response)

  predicate HasStatus(row: Option<Row>, status: Status) {
    row.Some? && row.value.status == status
  }

  /** The statements that need no outside input; None while the transaction waits for a lock. */
  function Statement(se: Session, row: Option<Row>, linked: bool, keyFree: bool, rowFree: bool): Option<Move> {
    match se.pc
    case CheckLinkFirst => Some(if linked then Close(PreassessmentOnly) else Goto(ReadThreshold))
    case CheckLinkAgain =>
      Some(if linked then Close(PreassessmentOnly) else Goto(if se.req.action == Disburse then CheckOwner else TakeLock))
    case TakeLock => if keyFree then Some(LockKey) else None
    case ReadReceipt =>
      Some(Goto(if HasStatus(row, Used) && row.value.receipt.Some? then CommitRead(Replay(row.value.receipt.value))
                else SelectGrant))
    case SelectGrant =>
      if !HasStatus(row, Approved) then Some(Goto(ReadPending)) else if rowFree then Some(LockRow) else None
    case ReadPending => Some(Goto(if HasStatus(row, Pending) then CommitRead(AwaitsApproval) else ReadTerminal))
    case ReadTerminal =>
      Some(Goto(if HasStatus(row, Rejected) || HasStatus(row, ExecFailed)
                then CommitRead(Closed(HasStatus(row, ExecFailed), row.value.reason)) else Decide))
    case FinalizeReceipt(result) =>
      // the update is guarded by status='approved'; no row updated is an error
      Some(if HasStatus(row, Approved) then Goto(CommitWrite(Finalize(Receipt(result, false)))) else Close(GatedError))
    case InsertUsed(ev, result) =>
      // a second row with the same key violates the unique constraint
      Some(if row.Some? then Close(GatedError) else Goto(CommitWrite(AutoInsert(Receipt(result, true), ev))))
    case InsertTicket(snapshot) =>
      Some(if row.Some? then Close(GatedError) else Goto(CommitWrite(PendingInsert(snapshot))))
    case CommitRead(r) => Some(Close(r))
    case CommitWrite(w) => Some(Publish(w))
    case _ => None
  }

  /** The label moves a running transaction. */
  predicate InSession(l: Label) {
    l.Step? || l.ReadSetting? || l.Owner? || l.Run? || l.Rule? || l.Fail?
  }

  /** What the transaction does under a label. */
  function Advance(v: View, keyFree: bool, rowFree: bool, reading: Reading, l: Label): Option<Move>
    requires InSession(l)
  {
    match l
    case Step(_) => Statement(v.se, v.row, v.linked, keyFree, rowFree)
    case ReadSetting(_, row) => if v.se.pc.ReadThreshold? then Some(Configure(Threshold(row))) else None
    case Owner(_, refused) =>
      if v.se.pc.CheckOwner? then Some(if refused then Close(NotYourLoan) else Goto(TakeLock)) else None
    case Rule(_, _, setting) =>
      if v.se.pc.Decide? then
        var (d, snapshot) :=
          GatedDecision(v.se.req.action, v.se.req.amount, reading, v.se.threshold, AutoMax(setting));
        Some(Goto(if d.Auto? then RunByRule(d.evidence) else InsertTicket(snapshot)))
      else None
    case Run(_, inner) =>
      if v.se.pc.RunGranted? then Some(if inner.Raises? then Close(GatedError) else Goto(FinalizeReceipt(inner.result)))
      else if v.se.pc.RunByRule? then
        Some(if inner.Raises? then Close(GatedError) else Goto(InsertUsed(v.se.pc.ev, inner.result)))
      else None
    case Fail(_) => if v.se.pc.Done? then None else Some(Close(GatedError))
  }

  function Written(db: Db, k: Key, args: Args, w: Write): Db {
    match w
    case Finalize(receipt) => if k in db.rows then FinalizeRow(db, k, receipt) else db
    case AutoInsert(receipt, ev) => InsertAuto(db, k, args, receipt, ev)
    case PendingInsert(snapshot) => Approvals.InsertPending(db, k, args, snapshot)
  }

  function WriteAnswer(w: Write): Response {
    match w
    case Finalize(receipt) => Executed(receipt)
    case AutoInsert(receipt, _) => Executed(receipt)
    case PendingInsert(_) => NeedsApproval
  }

  function Perform(s: State, sid: Sid, m: Move): State
    requires sid in s.sessions
  {
    var se := s.sessions[sid];
    match m
    case Goto(pc) => At(s, sid, pc)
    case Configure(t) => s.(sessions := s.sessions[sid := se.(threshold := t, pc := CheckLinkAgain)])
    case LockKey => At(s, sid, ReadReceipt).(locks := s.locks[se.key := sid])
    case LockRow => At(s, sid, RunGranted).(rowLocks := s.rowLocks[se.key := sid])
    case Publish(w) => Finish(s.(db := Written(s.db, se.key, se.req.args, w)), sid, WriteAnswer(w))
    case Close(r) => Finish(s, sid, r)
  }

  function MoveOf(s: State, l: Label): Option<Move>
    requires InSession(l)
  {
    if l.sid !in s.sessions then None
    else
      var se := s.sessions[l.sid];
      var reading := if l.Rule? then ReadingOf(s, se.req.action, se.req.args, l.readable) else Unread;
      Advance(ViewOf(s, l.sid), se.key !in s.locks, se.key !in s.rowLocks, reading, l)
  }

  function SessionStep(s: State, l: Label): Option<State>
    requires InSession(l)
  {
    var m := MoveOf(s, l);
    if m.Some? then Some(Perform(s, l.sid, m.value)) else None
  }

  function Next(s: State, l: Label): Option<State> {
    match l
    case Begin(sid, req) =>
      if sid !in s.sessions && req.conv in s.convs && AmountOf(req.action, req.args, req.amount)
      then Some(s.(sessions := s.sessions[sid := Session(req, req.Key(), 0.0, CheckLinkFirst)]))
      else None
    case Settle(k, approve, decider, reason) =>
      if k in s.rowLocks then None
      else
        var (db, decided) := DecideRow(s.db, k, approve, decider, reason);
        Some(s.(db := db, approved := if decided && approve then s.approved + {k} else s.approved))
    case ClaimAttempt(k) => if k in s.rowLocks then None else Some(s.(db := ClaimRow(s.db, k).0))
    case MarkFailed(k) => if k in s.rowLocks then None else Some(s.(db := MarkRow(s.db, k)))
    case OpenConversation(c) => if c in s.convs then None else Some(s.(convs := s.convs + {c}))
    case LinkConversation(c) =>
      if c in s.convs then None else Some(s.(convs := s.convs + {c}, linked := s.linked + {c}))
    case Classify(a) =>
      if a.lane == LaneOf(a.criteria) && BusinessNeedsReview(a) then Some(s.(ledger := s.ledger + [a])) else None
    case _ => SessionStep(s, l)
  }

  /** A business is never classified with all criteria passed. */
  predicate BusinessNeedsReview(a: Assessment) {
    a.kind == Business ==> AnyAt(a.criteria, Caution)
  }
}
