/** What every interleaving of gated transactions and ledger writers keeps. */
module GateSafety {
  import opened Wrappers
  import opened Machines
  import opened Payload
  import opened Lanes
  import opened Verdict
  import opened Approvals
  import opened GateMachine

  /** The transaction holds the advisory lock of its key. */
  predicate HoldsLock(pc: Pc) {
    !(pc.CheckLinkFirst? || pc.ReadThreshold? || pc.CheckLinkAgain? || pc.CheckOwner? || pc.TakeLock? || pc.Done?)
  }

  /** The transaction selected the approved row FOR UPDATE. */
  predicate HoldsRow(pc: Pc) {
    pc.RunGranted? || pc.FinalizeReceipt? || (pc.CommitWrite? && pc.w.Finalize?)
  }

  predicate Inserts(pc: Pc) {
    pc.CommitWrite? && !pc.w.Finalize?
  }

  function EvidenceOf(pc: Pc): Option<Evidence> {
    match pc
    case RunByRule(ev) => Some(ev)
    case InsertUsed(ev, _) => Some(ev)
    case CommitWrite(AutoInsert(_, ev)) => Some(ev)
    case _ => None
  }

  /** A reading is what the ledger held when it was taken: the latest assessment of the owner of the loan
      that the payload names. */
  predicate ReadingHolds(owners: map<string, string>, ledger: seq<Assessment>, args: Args, r: Reading) {
    var owner := OwnerOf(owners, "loan_id", args);
    match r
    case Unread => true
    case Unnamed => owner.None?
    case OfOwner(o, seen, found) => owner == Some(o) && seen <= |ledger| && found == Latest(ledger[..seen], o)
  }

  /** The rule's evidence is real: the amount is the payload's and the reading is the ledger's. */
  predicate EvidenceHolds(owners: map<string, string>, ledger: seq<Assessment>, action: Action, args: Args, ev: Evidence) {
    && action == Disburse
    && AmountOf(action, args, Some(Finite(ev.amount)))
    && RuleAllows(ev)
    && ReadingHolds(owners, ledger, args, ev.reading)
  }

  /** Only a receipt of the automatic rule carries the rule's note. */
  predicate ReceiptFits(pc: Pc) {
    match pc
    case CommitWrite(Finalize(receipt)) => !receipt.autoNote
    case CommitWrite(AutoInsert(receipt, _)) => receipt.autoNote
    case _ => true
  }

  /** What a transaction may rely on. */
  predicate Fits(v: View) {
    && v.known
    && HoldsLock(v.se.pc) == v.hasLock
    && HoldsRow(v.se.pc) == v.hasRow
    && (v.hasRow ==> v.row.Some? && v.row.value.status == Approved)
    && (Inserts(v.se.pc) ==> v.row.None?)
    && ReceiptFits(v.se.pc)
    && (v.linked ==> v.se.pc.CheckLinkFirst? || v.se.pc.Done?)
    && (EvidenceOf(v.se.pc).Some? ==>
        EvidenceHolds(v.owners, v.ledger, v.se.req.action, v.se.req.args, EvidenceOf(v.se.pc).value))
  }

  ghost predicate SessionsOk(s: State) {
    forall sid :: sid in s.sessions ==> Fits(ViewOf(s, sid))
  }

  ghost predicate RequestsOk(s: State) {
    forall sid :: sid in s.sessions ==>
      var se := s.sessions[sid];
      se.key == se.req.Key() && AmountOf(se.req.action, se.req.args, se.req.amount)
  }

  /** Every lock is held by a running transaction with that key. */
  ghost predicate LocksOk(s: State) {
    && (forall k :: k in s.locks ==> s.locks[k] in s.sessions && s.sessions[s.locks[k]].key == k)
    && (forall k :: k in s.rowLocks ==> s.rowLocks[k] in s.sessions && s.sessions[s.rowLocks[k]].key == k)
    && (forall k :: k in s.rowLocks ==> k in s.locks && s.locks[k] == s.rowLocks[k])
  }

  predicate RowPlaced(k: Key, row: Row, convs: set<ConvId>, linked: set<ConvId>, approved: set<Key>) {
    && k == KeyOf(k.conv, k.action, row.args)
    && k.conv in convs
    && k.conv !in linked
    && (row.status == Approved ==> k in approved)
  }

  predicate RowsOk(rows: map<Key, Row>, convs: set<ConvId>, linked: set<ConvId>, approved: set<Key>) {
    forall k :: k in rows ==> RowPlaced(k, rows[k], convs, linked, approved)
  }

  /** By what right an execution was committed. */
  predicate Authorized(e: Execution, approved: set<Key>, ledger: seq<Assessment>, owners: map<string, string>) {
    && e.key == KeyOf(e.key.conv, e.key.action, e.args)
    && match e.authority
       case Human => e.key in approved
       case Rule(ev) => EvidenceHolds(owners, ledger, e.key.action, e.args, ev)
  }

  predicate ExecutionsOk(executed: seq<Execution>, approved: set<Key>, ledger: seq<Assessment>,
                         owners: map<string, string>) {
    forall i :: 0 <= i < |executed| ==> Authorized(executed[i], approved, ledger, owners)
  }

  predicate LedgerOk(ledger: seq<Assessment>) {
    forall i :: 0 <= i < |ledger| ==> ledger[i].lane == LaneOf(ledger[i].criteria) && BusinessNeedsReview(ledger[i])
  }

  /** What the committed tables keep, whatever the sessions do. */
  ghost predicate TablesOk(db: Db, convs: set<ConvId>, linked: set<ConvId>, approved: set<Key>, ledger: seq<Assessment>,
                           owners: map<string, string>) {
    && DbOk(db) && OnceEach(db)
    && RowsOk(db.rows, convs, linked, approved)
    && ExecutionsOk(db.executed, approved, ledger, owners)
    && LedgerOk(ledger)
    && linked <= convs
  }

  ghost predicate TransactionsOk(s: State) {
    RequestsOk(s) && SessionsOk(s) && LocksOk(s)
  }

  ghost predicate Inv(s: State) {
    TablesOk(s.db, s.convs, s.linked, s.approved, s.ledger, s.loanOwner) && TransactionsOk(s)
  }

  // ------------------------------------------------------------ session steps

  /** When every other transaction sees what it saw, only the moving one has to be looked at. */
  lemma OthersKeep(s: State, t: State, sid: Sid)
    requires SessionsOk(s)
    requires forall o :: o in t.sessions && o != sid ==> o in s.sessions && ViewOf(t, o) == ViewOf(s, o)
    requires sid in t.sessions ==> Fits(ViewOf(t, sid))
    ensures SessionsOk(t)
  {
    hide Fits;
    forall o | o in t.sessions ensures Fits(ViewOf(t, o)) {
      if o != sid {
        assert ViewOf(t, o) == ViewOf(s, o);
      }
    }
  }

  /** Requests stay as they are while sessions keep them. */
  lemma RequestsStay(s: State, t: State)
    requires RequestsOk(s) && t.sessions.Keys == s.sessions.Keys
    requires forall o :: o in s.sessions ==> t.sessions[o].key == s.sessions[o].key && t.sessions[o].req == s.sessions[o].req
    ensures RequestsOk(t)
  {
    hide KeyOf, AmountOf;
    forall o | o in t.sessions
      ensures t.sessions[o].key == t.sessions[o].req.Key()
      ensures AmountOf(t.sessions[o].req.action, t.sessions[o].req.args, t.sessions[o].req.amount)
    {
      assert o in s.sessions;
    }
  }

  /** A session that answers no longer relies on anything but its conversation. */
  lemma DoneFits(v: View, w: View)
    requires Fits(v) && w.known == v.known && w.se.pc.Done? && !w.hasLock && !w.hasRow
    ensures Fits(w)
  {
  }

  /** Locks stay in order while sessions keep their keys. */
  lemma LocksStay(s: State, t: State)
    requires LocksOk(s) && t.locks == s.locks && t.rowLocks == s.rowLocks
    requires forall o :: o in s.sessions ==> o in t.sessions && t.sessions[o].key == s.sessions[o].key
    ensures LocksOk(t)
  {
    forall k | k in t.locks ensures t.locks[k] in t.sessions && t.sessions[t.locks[k]].key == k {
      assert k in s.locks;
    }
    forall k | k in t.rowLocks ensures t.rowLocks[k] in t.sessions && t.sessions[t.rowLocks[k]].key == k {
      assert k in s.rowLocks;
    }
  }

  /** The program counter fits what the session sees once it is there. */
  predicate Follows(v: View, pc: Pc) {
    Fits(v.(se := v.se.(pc := pc)))
  }

  /** The session `sid` with another program counter and threshold. */
  function Moved(s: State, sid: Sid, pc: Pc, threshold: real): State
    requires sid in s.sessions
  {
    s.(sessions := s.sessions[sid := s.sessions[sid].(threshold := threshold, pc := pc)])
  }

  /** A step inside a transaction that neither takes nor frees a lock. */
  lemma MovedKeeps(s: State, sid: Sid, pc: Pc, threshold: real)
    requires sid in s.sessions && TransactionsOk(s) && Follows(ViewOf(s, sid), pc)
    ensures TransactionsOk(Moved(s, sid, pc, threshold))
  {
    hide KeyOf, LocksOk, RequestsOk, EvidenceHolds, HoldsLock, HoldsRow, EvidenceOf, ReceiptFits;
    var t := Moved(s, sid, pc, threshold);
    ThresholdIsFree(ViewOf(s, sid).(se := s.sessions[sid].(pc := pc)), threshold);
    OthersKeep(s, t, sid);
    LocksStay(s, t);
    RequestsStay(s, t);
  }

  lemma ThresholdIsFree(v: View, threshold: real)
    requires Fits(v)
    ensures Fits(v.(se := v.se.(threshold := threshold)))
  {
  }

  lemma AtKeeps(s: State, sid: Sid, pc: Pc)
    requires sid in s.sessions && TransactionsOk(s) && Follows(ViewOf(s, sid), pc)
    ensures TransactionsOk(At(s, sid, pc))
  {
    hide TransactionsOk, Follows, ViewOf;
    MovedKeeps(s, sid, pc, s.sessions[sid].threshold);
    assert At(s, sid, pc) == Moved(s, sid, pc, s.sessions[sid].threshold);
  }

  lemma FinishFrees(s: State, sid: Sid, r: Response, o: Sid, j: Key)
    requires sid in s.sessions
    ensures var t := Finish(s, sid, r);
      && (o != sid ==> (Get(t.locks, j) == Some(o)) == (Get(s.locks, j) == Some(o)))
      && (o != sid ==> (Get(t.rowLocks, j) == Some(o)) == (Get(s.rowLocks, j) == Some(o)))
      && (j == s.sessions[sid].key ==> Get(t.locks, j) != Some(sid) && Get(t.rowLocks, j) != Some(sid))
  {
  }

  lemma FinishedView(s: State, sid: Sid, r: Response, o: Sid)
    requires sid in s.sessions && o in s.sessions && o != sid
    ensures ViewOf(Finish(s, sid, r), o) == ViewOf(s, o)
  {
    FinishFrees(s, sid, r, o, s.sessions[o].key);
  }

  lemma FinishSessions(s: State, sid: Sid, r: Response)
    requires sid in s.sessions && SessionsOk(s)
    ensures SessionsOk(Finish(s, sid, r))
  {
    hide Fits;
    var t := Finish(s, sid, r);
    FinishFrees(s, sid, r, sid, t.sessions[sid].key);
    DoneFits(ViewOf(s, sid), ViewOf(t, sid));
    assert t.sessions.Keys == s.sessions.Keys;
    hide ViewOf, SessionsOk, Finish;
    forall o | o in t.sessions && o != sid ensures ViewOf(t, o) == ViewOf(s, o) {
      FinishedView(s, sid, r, o);
    }
    OthersKeep(s, t, sid);
  }

  lemma FinishKeeps(s: State, sid: Sid, r: Response)
    requires sid in s.sessions && TransactionsOk(s)
    ensures TransactionsOk(Finish(s, sid, r))
  {
    hide KeyOf, SessionsOk, LocksOk, RequestsOk;
    FinishSessions(s, sid, r);
    FinishLocksOk(s, sid, r);
    RequestsStay(s, Finish(s, sid, r));
  }

  lemma FinishLocksOk(s: State, sid: Sid, r: Response)
    requires LocksOk(s) && sid in s.sessions
    ensures LocksOk(Finish(s, sid, r))
  {
    var t := Finish(s, sid, r);
    forall k | k in t.locks ensures t.locks[k] in t.sessions && t.sessions[t.locks[k]].key == k {
      assert k in s.locks && t.locks[k] == s.locks[k];
    }
    forall k | k in t.rowLocks
      ensures t.rowLocks[k] in t.sessions && t.sessions[t.rowLocks[k]].key == k
      ensures k in t.locks && t.locks[k] == t.rowLocks[k]
    {
      assert k in s.rowLocks && t.rowLocks[k] == s.rowLocks[k];
    }
  }

  lemma LockFrame(m: map<Key, Sid>, k: Key, sid: Sid, o: Sid, j: Key)
    requires k !in m
    ensures o != sid ==> (Get(m[k := sid], j) == Some(o)) == (Get(m, j) == Some(o))
    ensures Get(m[k := sid], k) == Some(sid)
  {
  }

  /** The state with the advisory lock of `k` given to `sid`. */
  function Locked(s: State, k: Key, sid: Sid): State {
    s.(locks := s.locks[k := sid])
  }

  lemma LockFits(v: View, w: View)
    requires Fits(v) && v.se.pc == TakeLock && w == v.(se := v.se.(pc := ReadReceipt), hasLock := true)
    ensures Fits(w)
  {
  }

  lemma GrantFits(v: View, w: View)
    requires Fits(v) && v.se.pc == SelectGrant && w == v.(se := v.se.(pc := RunGranted), hasRow := true)
    requires v.row.Some? && v.row.value.status == Approved
    ensures v.hasLock && Fits(w)
  {
  }

  lemma LockedView(s: State, k: Key, sid: Sid, o: Sid)
    requires sid in s.sessions && o in s.sessions && o != sid && k !in s.locks
    ensures ViewOf(Locked(At(s, sid, ReadReceipt), k, sid), o) == ViewOf(s, o)
  {
    LockFrame(s.locks, k, sid, o, s.sessions[o].key);
  }

  lemma RowLockedView(s: State, k: Key, sid: Sid, o: Sid)
    requires sid in s.sessions && o in s.sessions && o != sid && k !in s.rowLocks
    ensures ViewOf(RowLocked(At(s, sid, RunGranted), k, sid), o) == ViewOf(s, o)
  {
    LockFrame(s.rowLocks, k, sid, o, s.sessions[o].key);
  }

  lemma TakeLockSessions(s: State, sid: Sid)
    requires sid in s.sessions && SessionsOk(s)
    requires s.sessions[sid].pc == TakeLock && s.sessions[sid].key !in s.locks
    ensures SessionsOk(Locked(At(s, sid, ReadReceipt), s.sessions[sid].key, sid))
  {
    hide Fits;
    var k := s.sessions[sid].key;
    var t := Locked(At(s, sid, ReadReceipt), k, sid);
    LockFits(ViewOf(s, sid), ViewOf(t, sid));
    hide ViewOf, SessionsOk;
    forall o | o in t.sessions && o != sid ensures ViewOf(t, o) == ViewOf(s, o) {
      LockedView(s, k, sid, o);
    }
    OthersKeep(s, t, sid);
  }

  lemma TakeLockKeeps(s: State, sid: Sid)
    requires sid in s.sessions && TransactionsOk(s)
    requires s.sessions[sid].pc == TakeLock && s.sessions[sid].key !in s.locks
    ensures TransactionsOk(Locked(At(s, sid, ReadReceipt), s.sessions[sid].key, sid))
  {
    hide LocksOk, RequestsOk, SessionsOk;
    var k := s.sessions[sid].key;
    TakeLockSessions(s, sid);
    LockAdded(s, sid, ReadReceipt, k);
    RequestsStay(s, Locked(At(s, sid, ReadReceipt), k, sid));
  }

  lemma LockAdded(s: State, sid: Sid, pc: Pc, k: Key)
    requires sid in s.sessions && LocksOk(s) && s.sessions[sid].key == k && k !in s.locks
    ensures LocksOk(Locked(At(s, sid, pc), k, sid))
  {
    LocksStay(s, At(s, sid, pc));
  }

  lemma RowLockAdded(s: State, sid: Sid, pc: Pc, k: Key)
    requires sid in s.sessions && LocksOk(s) && s.sessions[sid].key == k
    requires k !in s.rowLocks && k in s.locks && s.locks[k] == sid
    ensures LocksOk(RowLocked(At(s, sid, pc), k, sid))
  {
    LocksStay(s, At(s, sid, pc));
  }

  function RowLocked(s: State, k: Key, sid: Sid): State {
    s.(rowLocks := s.rowLocks[k := sid])
  }

  lemma SelectGrantSessions(s: State, sid: Sid)
    requires sid in s.sessions && SessionsOk(s) && s.sessions[sid].pc == SelectGrant
    requires var k := s.sessions[sid].key;
      k !in s.rowLocks && k in s.db.rows && s.db.rows[k].status == Approved
    ensures SessionsOk(RowLocked(At(s, sid, RunGranted), s.sessions[sid].key, sid))
    ensures Get(s.locks, s.sessions[sid].key) == Some(sid)
  {
    hide Fits;
    var k := s.sessions[sid].key;
    var t := RowLocked(At(s, sid, RunGranted), k, sid);
    GrantFits(ViewOf(s, sid), ViewOf(t, sid));
    assert Get(s.locks, k) == Some(sid);
    hide ViewOf, SessionsOk;
    forall o | o in t.sessions && o != sid ensures ViewOf(t, o) == ViewOf(s, o) {
      RowLockedView(s, k, sid, o);
    }
    OthersKeep(s, t, sid);
  }

  lemma SelectGrantKeeps(s: State, sid: Sid)
    requires sid in s.sessions && TransactionsOk(s) && s.sessions[sid].pc == SelectGrant
    requires var k := s.sessions[sid].key;
      k !in s.rowLocks && k in s.db.rows && s.db.rows[k].status == Approved
    ensures TransactionsOk(RowLocked(At(s, sid, RunGranted), s.sessions[sid].key, sid))
  {
    hide LocksOk, RequestsOk, SessionsOk;
    var k := s.sessions[sid].key;
    SelectGrantSessions(s, sid);
    RowLockAdded(s, sid, RunGranted, k);
    RequestsStay(s, RowLocked(At(s, sid, RunGranted), k, sid));
  }

  // ------------------------------------------------------------ ledger steps

  /** A change of the tables at a key no transaction holds leaves every transaction as it was. */
  lemma TablesLeaveSessions(s: State, db: Db, k: Key, approved: set<Key>)
    requires TransactionsOk(s) && OnlyAt(s.db, db, k)
    requires k !in s.rowLocks && (k in s.db.rows || k !in s.locks)
    requires k in s.db.rows ==> k in db.rows
    ensures TransactionsOk(s.(db := db, approved := approved))
  {
    var t := s.(db := db, approved := approved);
    forall o | o in t.sessions ensures Fits(ViewOf(t, o)) {
      assert Fits(ViewOf(s, o));
      var j := s.sessions[o].key;
      if j != k {
        assert Get(db.rows, j) == Get(s.db.rows, j);
      }
    }
  }

  lemma TablesKeep(db: Db, db': Db, k: Key, convs: set<ConvId>, linked: set<ConvId>,
                   approved: set<Key>, approved': set<Key>, ledger: seq<Assessment>, owners: map<string, string>)
    requires TablesOk(db, convs, linked, approved, ledger, owners)
    requires DbOk(db') && OnceEach(db') && OnlyAt(db, db', k) && approved <= approved'
    requires k in db'.rows ==> RowPlaced(k, db'.rows[k], convs, linked, approved')
    requires db'.executed == db.executed
          || (exists e :: db'.executed == db.executed + [e] && Authorized(e, approved', ledger, owners))
    ensures TablesOk(db', convs, linked, approved', ledger, owners)
  {
    forall j | j in db'.rows ensures RowPlaced(j, db'.rows[j], convs, linked, approved') {
      if j != k {
        assert Get(db'.rows, j) == Get(db.rows, j);
        assert RowPlaced(j, db.rows[j], convs, linked, approved);
      }
    }
    forall i | 0 <= i < |db'.executed| ensures Authorized(db'.executed[i], approved', ledger, owners) {
      if i < |db.executed| {
        assert db'.executed[i] == db.executed[i];
        assert Authorized(db.executed[i], approved, ledger, owners);
      }
    }
  }

  // ------------------------------------------------------------ every step

  /** The end of a transaction that publishes a change at its own key. */
  lemma PublishKeeps(s: State, sid: Sid, db: Db, r: Response)
    requires Inv(s) && sid in s.sessions && HoldsLock(s.sessions[sid].pc)
    requires DbOk(db) && OnceEach(db) && OnlyAt(s.db, db, s.sessions[sid].key)
    requires s.sessions[sid].key in db.rows
    requires RowPlaced(s.sessions[sid].key, db.rows[s.sessions[sid].key], s.convs, s.linked, s.approved)
    requires db.executed == s.db.executed
          || (exists e :: db.executed == s.db.executed + [e] && Authorized(e, s.approved, s.ledger, s.loanOwner))
    ensures Inv(Finish(s.(db := db), sid, r))
  {
    hide DbOk, OnceEach, RequestsOk, ExecutionsOk, RowsOk, LedgerOk;
    var k := s.sessions[sid].key;
    var s1 := Finish(s, sid, r);
    assert Fits(ViewOf(s, sid));
    FinishKeeps(s, sid, r);
    assert k !in s1.locks && k !in s1.rowLocks;
    TablesLeaveSessions(s1, db, k, s.approved);
    TablesKeep(s.db, db, k, s.convs, s.linked, s.approved, s.approved, s.ledger, s.loanOwner);
    assert Finish(s.(db := db), sid, r) == s1.(db := db, approved := s.approved);
  }

  lemma KeyParts(req: Request)
    ensures req.Key().conv == req.conv && req.Key().action == req.action
    ensures req.Key() == KeyOf(req.Key().conv, req.Key().action, req.args)
  {
  }

  lemma FinalizeKeepsInv(s: State, sid: Sid, receipt: Receipt)
    requires Inv(s) && sid in s.sessions && s.sessions[sid].pc == CommitWrite(Finalize(receipt))
    ensures Inv(Perform(s, sid, Publish(Finalize(receipt))))
  {
    hide RequestsOk, LocksOk, DbOk, OnceEach, ExecutionsOk, LedgerOk, Finish, RowMoves;
    var k := s.sessions[sid].key;
    assert Fits(ViewOf(s, sid));
    assert RowPlaced(k, s.db.rows[k], s.convs, s.linked, s.approved);
    FinalizeKeeps(s.db, k, receipt);
    var db := FinalizeRow(s.db, k, receipt);
    var e := Execution(k, s.db.rows[k].args, receipt, Authority.Human);
    assert db.executed == s.db.executed + [e] && Authorized(e, s.approved, s.ledger, s.loanOwner);
    PublishKeeps(s, sid, db, Executed(receipt));
  }

  lemma AutoKeepsInv(s: State, sid: Sid, receipt: Receipt, ev: Evidence)
    requires Inv(s) && sid in s.sessions && s.sessions[sid].pc == CommitWrite(AutoInsert(receipt, ev))
    ensures Inv(Perform(s, sid, Publish(AutoInsert(receipt, ev))))
  {
    hide LocksOk, DbOk, OnceEach, ExecutionsOk, LedgerOk, RowsOk, Finish, RowMoves, EvidenceHolds, AmountOf, KeyOf;
    var k := s.sessions[sid].key;
    var req := s.sessions[sid].req;
    assert Fits(ViewOf(s, sid));
    assert k == req.Key();
    InsertAutoKeeps(s.db, k, req.args, receipt, ev);
    var db := InsertAuto(s.db, k, req.args, receipt, ev);
    var e := Execution(k, req.args, receipt, Authority.Rule(ev));
    assert k == KeyOf(k.conv, k.action, req.args) && k.conv == req.conv && k.action == req.action by { KeyParts(req); }
    assert db.executed == s.db.executed + [e] && Authorized(e, s.approved, s.ledger, s.loanOwner);
    PublishKeeps(s, sid, db, Executed(receipt));
  }

  lemma PendingKeepsInv(s: State, sid: Sid, snapshot: Snapshot)
    requires Inv(s) && sid in s.sessions && s.sessions[sid].pc == CommitWrite(PendingInsert(snapshot))
    ensures Inv(Perform(s, sid, Publish(PendingInsert(snapshot))))
  {
    hide LocksOk, DbOk, OnceEach, ExecutionsOk, LedgerOk, RowsOk, Finish, RowMoves, EvidenceHolds, AmountOf, KeyOf;
    var k := s.sessions[sid].key;
    var req := s.sessions[sid].req;
    assert Fits(ViewOf(s, sid));
    assert k == req.Key();
    assert k == KeyOf(k.conv, k.action, req.args) && k.conv == req.conv by { KeyParts(req); }
    InsertPendingKeeps(s.db, k, req.args, snapshot);
    PublishKeeps(s, sid, Approvals.InsertPending(s.db, k, req.args, snapshot), NeedsApproval);
  }

  lemma ReadingIsThere(s: State, args: Args, readable: bool)
    ensures ReadingHolds(s.loanOwner, s.ledger, args, ReadingOf(s, Disburse, args, readable))
  {
    hide Latest;
    assert s.ledger[..|s.ledger|] == s.ledger;
  }

  /** What a statement may do, given what the transaction may rely on. */
  predicate MoveFits(v: View, m: Move) {
    match m
    case Goto(pc) => Follows(v, pc)
    case Configure(_) => Follows(v, CheckLinkAgain)
    case LockKey => v.se.pc == TakeLock
    case LockRow => v.se.pc == SelectGrant && HasStatus(v.row, Approved)
    case Publish(w) => v.se.pc == CommitWrite(w)
    case Close(_) => true
  }

  lemma StatementFits(se: Session, v: View, keyFree: bool, rowFree: bool)
    requires Fits(v) && v.se == se && Statement(se, v.row, v.linked, keyFree, rowFree).Some?
    ensures MoveFits(v, Statement(se, v.row, v.linked, keyFree, rowFree).value)
  {
    hide EvidenceHolds;
  }

  lemma RuleFits(v: View, reading: Reading, autoMax: Num)
    requires Fits(v) && v.se.pc == GateMachine.Decide
    requires v.se.req.action == Disburse ==> ReadingHolds(v.owners, v.ledger, v.se.req.args, reading)
    requires AmountOf(v.se.req.action, v.se.req.args, v.se.req.amount)
    ensures var (d, snapshot) := GatedDecision(v.se.req.action, v.se.req.amount, reading, v.se.threshold, autoMax);
      Follows(v, if d.Auto? then RunByRule(d.evidence) else InsertTicket(snapshot))
  {
    hide GatedDecision, ReadingHolds;
    AutoIff(v.se.req.action, v.se.req.amount, reading, v.se.threshold, autoMax);
  }

  lemma AdvanceFits(v: View, keyFree: bool, rowFree: bool, reading: Reading, l: Label)
    requires InSession(l) && Fits(v)
    requires l.Rule? && v.se.req.action == Disburse ==> ReadingHolds(v.owners, v.ledger, v.se.req.args, reading)
    requires AmountOf(v.se.req.action, v.se.req.args, v.se.req.amount)
    requires Advance(v, keyFree, rowFree, reading, l).Some?
    ensures MoveFits(v, Advance(v, keyFree, rowFree, reading, l).value)
  {
    hide Statement, GatedDecision, EvidenceHolds, AmountOf, ReadingHolds;
    if l.Step? {
      StatementFits(v.se, v, keyFree, rowFree);
    } else if l.Rule? {
      RuleFits(v, reading, AutoMax(l.setting));
    }
  }

  lemma PerformKeeps(s: State, sid: Sid, m: Move)
    requires Inv(s) && sid in s.sessions && MoveFits(ViewOf(s, sid), m)
    requires m.LockKey? ==> s.sessions[sid].key !in s.locks
    requires m.LockRow? ==> s.sessions[sid].key !in s.rowLocks
    ensures Inv(Perform(s, sid, m))
  {
    hide TablesOk, TransactionsOk, Follows, Written, WriteAnswer;
    match m
    case Goto(pc) => AtKeeps(s, sid, pc);
    case Configure(t) => MovedKeeps(s, sid, CheckLinkAgain, t);
    case LockKey => TakeLockKeeps(s, sid);
    case LockRow => SelectGrantKeeps(s, sid);
    case Close(r) => FinishKeeps(s, sid, r);
    case Publish(w) =>
      match w {
        case Finalize(receipt) => FinalizeKeepsInv(s, sid, receipt);
        case AutoInsert(receipt, ev) => AutoKeepsInv(s, sid, receipt, ev);
        case PendingInsert(snapshot) => PendingKeepsInv(s, sid, snapshot);
      }
  }

  lemma SessionStepKeeps(s: State, l: Label)
    requires InSession(l) && Inv(s) && SessionStep(s, l).Some?
    ensures Inv(SessionStep(s, l).value)
  {
    hide TablesOk, LocksOk, KeyOf, AmountOf, ReadingOf, ReadingHolds, Fits, MoveFits, Perform, GatedDecision;
    var se := s.sessions[l.sid];
    var reading := if l.Rule? then ReadingOf(s, se.req.action, se.req.args, l.readable) else Unread;
    if l.Rule? {
      ReadingIsThere(s, se.req.args, l.readable);
    }
    AdvanceFits(ViewOf(s, l.sid), se.key !in s.locks, se.key !in s.rowLocks, reading, l);
    PerformKeeps(s, l.sid, MoveOf(s, l).value);
  }

  lemma NoLockYet(s: State, sid: Sid, k: Key)
    requires LocksOk(s) && sid !in s.sessions
    ensures Get(s.locks, k) != Some(sid) && Get(s.rowLocks, k) != Some(sid)
  {
  }

  lemma BeginKeeps(s: State, sid: Sid, req: Request)
    requires Inv(s) && Next(s, Begin(sid, req)).Some?
    ensures Inv(Next(s, Begin(sid, req)).value)
  {
    hide KeyOf, TablesOk, AmountOf, SessionStep, SessionsOk, RequestsOk, LocksOk;
    var t := Next(s, Begin(sid, req)).value;
    LocksStay(s, t);
    BeginSessions(s, sid, req);
    BeginRequests(s, sid, req);
  }

  function Begun(s: State, sid: Sid, req: Request): State {
    s.(sessions := s.sessions[sid := Session(req, req.Key(), 0.0, CheckLinkFirst)])
  }

  lemma BeginSessions(s: State, sid: Sid, req: Request)
    requires SessionsOk(s) && LocksOk(s) && sid !in s.sessions && req.conv in s.convs
    ensures SessionsOk(Begun(s, sid, req))
  {
    hide KeyOf;
    NoLockYet(s, sid, req.Key());
    assert Fits(ViewOf(Begun(s, sid, req), sid));
    hide Fits, LocksOk;
    OthersKeep(s, Begun(s, sid, req), sid);
  }

  lemma BeginRequests(s: State, sid: Sid, req: Request)
    requires RequestsOk(s) && AmountOf(req.action, req.args, req.amount)
    ensures RequestsOk(Begun(s, sid, req))
  {
    hide KeyOf, AmountOf;
  }

  lemma SettleKeeps(s: State, k: Key, approve: bool, decider: string, reason: Option<string>)
    requires Inv(s) && k !in s.rowLocks
    ensures Inv(Next(s, Settle(k, approve, decider, reason)).value)
  {
    hide TransactionsOk, DbOk, OnceEach, ExecutionsOk, LedgerOk, SessionStep, RowOk, ReviewOf;
    var t := Next(s, Settle(k, approve, decider, reason)).value;
    DecideKeeps(s.db, k, approve, decider, reason);
    if k in s.db.rows {
      assert RowPlaced(k, s.db.rows[k], s.convs, s.linked, s.approved);
      TablesLeaveSessions(s, t.db, k, t.approved);
      TablesKeep(s.db, t.db, k, s.convs, s.linked, s.approved, t.approved, s.ledger, s.loanOwner);
    }
  }

  lemma ClaimAttemptKeeps(s: State, k: Key)
    requires Inv(s) && k !in s.rowLocks
    ensures Inv(s.(db := ClaimRow(s.db, k).0))
  {
    hide TransactionsOk, DbOk, OnceEach, ExecutionsOk, LedgerOk, SessionStep, RowOk, ReviewOf;
    var db := ClaimRow(s.db, k).0;
    ClaimKeeps(s.db, k);
    if k in s.db.rows {
      assert RowPlaced(k, s.db.rows[k], s.convs, s.linked, s.approved);
      TablesLeaveSessions(s, db, k, s.approved);
      TablesKeep(s.db, db, k, s.convs, s.linked, s.approved, s.approved, s.ledger, s.loanOwner);
    }
  }

  lemma MarkFailedKeeps(s: State, k: Key)
    requires Inv(s) && k !in s.rowLocks
    ensures Inv(s.(db := MarkRow(s.db, k)))
  {
    hide TransactionsOk, DbOk, OnceEach, ExecutionsOk, LedgerOk, SessionStep, RowOk, ReviewOf;
    var db := MarkRow(s.db, k);
    MarkKeeps(s.db, k);
    if k in s.db.rows {
      assert RowPlaced(k, s.db.rows[k], s.convs, s.linked, s.approved);
      TablesLeaveSessions(s, db, k, s.approved);
      TablesKeep(s.db, db, k, s.convs, s.linked, s.approved, s.approved, s.ledger, s.loanOwner);
    }
  }

  lemma ConversationKeeps(s: State, c: ConvId, linked: set<ConvId>)
    requires Inv(s) && c !in s.convs && s.linked <= linked <= s.linked + {c}
    ensures Inv(s.(convs := s.convs + {c}, linked := linked))
  {
    var t := s.(convs := s.convs + {c}, linked := linked);
    forall o | o in t.sessions ensures Fits(ViewOf(t, o)) {
      assert Fits(ViewOf(s, o)) && ViewOf(t, o) == ViewOf(s, o);
    }
    forall k | k in t.db.rows ensures RowPlaced(k, t.db.rows[k], t.convs, t.linked, t.approved) {
      assert RowPlaced(k, s.db.rows[k], s.convs, s.linked, s.approved);
    }
  }

  lemma EvidenceStays(owners: map<string, string>, ledger: seq<Assessment>, a: Assessment, action: Action, args: Args,
                      ev: Evidence)
    requires EvidenceHolds(owners, ledger, action, args, ev)
    ensures EvidenceHolds(owners, ledger + [a], action, args, ev)
  {
    if ev.reading.OfOwner? {
      assert (ledger + [a])[..ev.reading.seen] == ledger[..ev.reading.seen];
    }
  }

  lemma ClassifyKeeps(s: State, a: Assessment)
    requires Inv(s) && a.lane == LaneOf(a.criteria) && BusinessNeedsReview(a)
    ensures Inv(s.(ledger := s.ledger + [a]))
  {
    var t := s.(ledger := s.ledger + [a]);
    forall o | o in t.sessions ensures Fits(ViewOf(t, o)) {
      assert Fits(ViewOf(s, o));
      var se := s.sessions[o];
      if EvidenceOf(se.pc).Some? {
        EvidenceStays(s.loanOwner, s.ledger, a, se.req.action, se.req.args, EvidenceOf(se.pc).value);
      }
    }
    forall i | 0 <= i < |s.db.executed| ensures Authorized(s.db.executed[i], s.approved, t.ledger, s.loanOwner) {
      var e := s.db.executed[i];
      assert Authorized(e, s.approved, s.ledger, s.loanOwner);
      if e.authority.Rule? {
        EvidenceStays(s.loanOwner, s.ledger, a, e.key.action, e.args, e.authority.evidence);
      }
    }
  }

  lemma StepKeeps(s: State, l: Label)
    requires Inv(s) && Next(s, l).Some?
    ensures Inv(Next(s, l).value)
  {
    hide Inv, SessionStep;
    match l
    case Begin(sid, req) => BeginKeeps(s, sid, req);
    case Settle(k, approve, decider, reason) => SettleKeeps(s, k, approve, decider, reason);
    case ClaimAttempt(k) => ClaimAttemptKeeps(s, k);
    case MarkFailed(k) => MarkFailedKeeps(s, k);
    case OpenConversation(c) => ConversationKeeps(s, c, s.linked);
    case LinkConversation(c) => ConversationKeeps(s, c, s.linked + {c});
    case Classify(a) => ClassifyKeeps(s, a);
    case _ => SessionStepKeeps(s, l);
  }

  // ------------------------------------------------------------ every run

  lemma InitialOk(s: State)
    requires Initial(s)
    ensures Inv(s)
  {
  }

  /** Every reachable state keeps the invariant. */
  lemma ReachableOk(s: State, ls: seq<Label>)
    requires Inv(s) && IsRun(Next, s, ls)
    ensures Inv(End(Next, s, ls))
  {
    hide Inv;
    forall t, l | Inv(t) && Next(t, l).Some? ensures Inv(Next(t, l).value) {
      StepKeeps(t, l);
    }
    InvariantHolds(Next, Inv, s, ls);
  }

  /** Exactly once, over every interleaving: the effect of a key is committed at most once, and exactly
      when its row is used; a row is used exactly when it has a receipt and a used_at. */
  lemma ExactlyOnce(s: State, ls: seq<Label>, k: Key)
    requires Initial(s) && IsRun(Next, s, ls)
    ensures var db := End(Next, s, ls).db;
      && CountFor(db.executed, k) == (if IsUsed(db, k) then 1 else 0)
      && (k in db.rows ==> (IsUsed(db, k) <==> db.rows[k].receipt.Some?))
      && (k in db.rows ==> (IsUsed(db, k) <==> db.rows[k].usedAt))
  {
    InitialOk(s);
    ReachableOk(s, ls);
    var db := End(Next, s, ls).db;
    assert k in db.rows ==> RowOk(db, k);
  }

  /** The latest assessment of an owner is a row of the ledger that no later row of the owner follows. */
  lemma {:induction false} LatestIsLast(ledger: seq<Assessment>, owner: string)
    ensures Latest(ledger, owner).None? ==> forall j :: 0 <= j < |ledger| ==> ledger[j].owner != owner
    ensures Latest(ledger, owner).Some? ==>
      var f := Latest(ledger, owner).value;
      && f.id < |ledger| && ledger[f.id].owner == owner && ledger[f.id].lane == f.lane
      && forall j :: f.id < j < |ledger| ==> ledger[j].owner != owner
  {
    if ledger != [] {
      LatestIsLast(ledger[..|ledger| - 1], owner);
    }
  }

  /** The field of the payload names a loan or an application of this owner. */
  predicate Names(owners: map<string, string>, field: string, args: Args, owner: string) {
    owner != "" && exists id :: id in owners && owners[id] == owner && id != "" && field in args && args[field] == Text(id)
  }

  lemma OwnerIsNamed(owners: map<string, string>, field: string, args: Args, owner: string)
    ensures OwnerOf(owners, field, args) == Some(owner) <==> Names(owners, field, args, owner)
  {
  }

  /** A green assessment of the borrower, the latest when it was read, whose criteria all passed. */
  predicate BackedByAssessment(owners: map<string, string>, ledger: seq<Assessment>, args: Args, r: Reading) {
    && r.OfOwner? && r.found.Some?
    && r.found.value.id < r.seen <= |ledger|
    && Names(owners, "loan_id", args, r.owner)
    && (forall j :: r.found.value.id < j < r.seen ==> ledger[j].owner != r.owner)
    && var a := ledger[r.found.value.id];
       && a.owner == r.owner && a.lane == Green && a.kind != Business
       && forall i :: 0 <= i < |a.criteria| ==> a.criteria[i].level == Pass
  }

  /** Whatever was executed was approved by a person under the same key, or is a plain disbursement that
      the rule allows on what it read of the borrower; from the threshold on that is a clean assessment of
      the borrower, the latest at the time. */
  lemma ExecutionsAreAuthorized(s: State, ls: seq<Label>, i: nat)
    requires Initial(s) && IsRun(Next, s, ls) && i < |End(Next, s, ls).db.executed|
    ensures var t := End(Next, s, ls); var e := t.db.executed[i];
      match e.authority
      case Human => e.key in t.approved
      case Rule(ev) =>
        && e.key.action == Disburse
        && AmountOf(Disburse, e.args, Some(Finite(ev.amount)))
        && RuleAllows(ev)
        && ReadingHolds(t.loanOwner, t.ledger, e.args, ev.reading)
        && (ev.amount >= ev.threshold ==> BackedByAssessment(t.loanOwner, t.ledger, e.args, ev.reading))
  {
    InitialOk(s);
    ReachableOk(s, ls);
    var t := End(Next, s, ls);
    var e := t.db.executed[i];
    assert Authorized(e, t.approved, t.ledger, t.loanOwner);
    assert LedgerOk(t.ledger);
    hide Inv, Initial, AmountOf, Latest, KeyOf;
    if e.authority.Rule? && e.authority.evidence.amount >= e.authority.evidence.threshold {
      GreenIsBacked(t.loanOwner, t.ledger, e.args, e.authority.evidence.reading);
    }
  }

  lemma GreenIsBacked(owners: map<string, string>, ledger: seq<Assessment>, args: Args, r: Reading)
    requires LedgerOk(ledger) && ReadingHolds(owners, ledger, args, r) && HasLane(r.Verdict(), Green)
    ensures BackedByAssessment(owners, ledger, args, r)
  {
    LatestIsLast(ledger[..r.seen], r.owner);
    OwnerIsNamed(owners, "loan_id", args, r.owner);
    hide Latest, OwnerOf, Names;
    forall j | r.found.value.id < j < r.seen ensures ledger[j].owner != r.owner {
      assert ledger[..r.seen][j] == ledger[j];
    }
    var a := ledger[r.found.value.id];
    assert a.lane == LaneOf(a.criteria) && BusinessNeedsReview(a);
    forall j | 0 <= j < |a.criteria| ensures a.criteria[j].level == Pass {
      assert a.criteria[j].level != Block && a.criteria[j].level != Caution;
    }
  }

  /** When the borrower's latest assessment is red, the decision goes to a person exactly when the
      assessment could be read or the amount reaches the threshold. */
  lemma RedStopsIff(s: State, sid: Sid, readable: bool, setting: Option<Num>)
    requires sid in s.sessions && s.sessions[sid].pc == GateMachine.Decide && s.sessions[sid].req.action == Disburse
    requires s.sessions[sid].threshold > 0.0
    requires s.sessions[sid].req.amount.Some? && s.sessions[sid].req.amount.value.Finite?
    requires var owner := OwnerOf(s.loanOwner, "loan_id", s.sessions[sid].req.args);
      owner.Some? && HasLane(Latest(s.ledger, owner.value), Red)
    ensures Next(s, GateMachine.Rule(sid, readable, setting)).Some?
    ensures Next(s, GateMachine.Rule(sid, readable, setting)).value.sessions[sid].pc.InsertTicket?
        <==> readable || s.sessions[sid].req.amount.value.r >= s.sessions[sid].threshold
  {
    hide OwnerOf, Latest;
    var se := s.sessions[sid];
    AutoIff(Disburse, se.req.amount, ReadingOf(s, Disburse, se.req.args, readable), se.threshold, AutoMax(setting));
    hide GatedDecision;
  }

  /** What a ticket shows: the latest assessment of the owner of what the payload names, if it can be read and
      there is one; a rejection is recommended exactly for a red one, and automatic approval exactly where the
      rule would allow it were it not switched off. */
  lemma TicketShowsLatest(s: State, sid: Sid, readable: bool, setting: Option<Num>)
    requires sid in s.sessions && s.sessions[sid].pc == GateMachine.Decide
    requires Next(s, GateMachine.Rule(sid, readable, setting)).Some?
    requires Next(s, GateMachine.Rule(sid, readable, setting)).value.sessions[sid].pc.InsertTicket?
    ensures var se := s.sessions[sid];
      var snap := Next(s, GateMachine.Rule(sid, readable, setting)).value.sessions[sid].pc.snapshot;
      var owners := if se.req.action == Disburse then s.loanOwner else s.applicationOwner;
      var field := if se.req.action == Disburse then "loan_id" else "application_id";
      && (snap.lane.Some? <==> snap.assessment.Some?)
      && (snap.lane.Some? ==>
            && readable && snap.assessment.value < |s.ledger|
            && s.ledger[snap.assessment.value].lane == snap.lane.value
            && Names(owners, field, se.req.args, s.ledger[snap.assessment.value].owner)
            && forall j :: snap.assessment.value < j < |s.ledger| ==>
                 s.ledger[j].owner != s.ledger[snap.assessment.value].owner)
      && (snap.lane.None? && readable ==>
            forall j :: 0 <= j < |s.ledger| ==> !Names(owners, field, se.req.args, s.ledger[j].owner))
      && (snap.recommendation == RejectRecommended <==> snap.lane == Some(Red))
      && (snap.recommendation == AutoEligible ==> se.threshold <= 0.0 && se.req.action == Disburse)
  {
    var se := s.sessions[sid];
    var reading := ReadingOf(s, se.req.action, se.req.args, readable);
    RecommendationAgrees(se.req.action, se.req.amount, reading, se.threshold, AutoMax(setting));
    var owners := if se.req.action == Disburse then s.loanOwner else s.applicationOwner;
    var field := if se.req.action == Disburse then "loan_id" else "application_id";
    var owner := OwnerOf(owners, field, se.req.args);
    if owner.Some? {
      LatestIsLast(s.ledger, owner.value);
    }
    forall o ensures owner == Some(o) <==> Names(owners, field, se.req.args, o) {
      OwnerIsNamed(owners, field, se.req.args, o);
    }
    hide OwnerOf, Latest, Names;
  }

  /** The guarded receipt update never misses: no writer can take an approved row away from the
      transaction that selected it. */
  lemma FinalizeNeverMisses(s: State, ls: seq<Label>, sid: Sid)
    requires Initial(s) && IsRun(Next, s, ls)
    requires sid in End(Next, s, ls).sessions && End(Next, s, ls).sessions[sid].pc.FinalizeReceipt?
    ensures var t := End(Next, s, ls); var k := t.sessions[sid].key;
      k in t.db.rows && t.db.rows[k].status == Approved
  {
    InitialOk(s);
    ReachableOk(s, ls);
    assert Fits(ViewOf(End(Next, s, ls), sid));
  }

  /** No approval row, and hence no execution, exists for a conversation that is linked to an intake case. */
  lemma LinkedNeverPays(t: State, k: Key)
    requires Inv(t) && k.conv in t.linked
    ensures k !in t.db.rows && CountFor(t.db.executed, k) == 0
  {
    hide TransactionsOk, DbOk;
    assert k in t.db.rows ==> RowPlaced(k, t.db.rows[k], t.convs, t.linked, t.approved);
  }

  // ------------------------------------------------------------ rows over a run

  lemma WrittenMoves(s: State, sid: Sid, w: Write)
    requires Inv(s) && sid in s.sessions && s.sessions[sid].pc == CommitWrite(w)
    ensures TablesMove(s.db, Written(s.db, s.sessions[sid].key, s.sessions[sid].req.args, w))
  {
    hide RequestsOk, LocksOk, RowsOk, ExecutionsOk, LedgerOk;
    assert Fits(ViewOf(s, sid));
    var k := s.sessions[sid].key;
    match w
    case Finalize(receipt) => FinalizeKeeps(s.db, k, receipt);
    case AutoInsert(receipt, ev) => InsertAutoKeeps(s.db, k, s.sessions[sid].req.args, receipt, ev);
    case PendingInsert(snapshot) => InsertPendingKeeps(s.db, k, s.sessions[sid].req.args, snapshot);
  }

  /** Only a commit changes the tables from inside a transaction. */
  lemma SessionMoves(s: State, l: Label)
    requires InSession(l) && Inv(s) && SessionStep(s, l).Some?
    ensures TablesMove(s.db, SessionStep(s, l).value.db)
  {
    hide Inv, GatedDecision, ReadingOf, Written, RowMoves;
    TablesStay(s.db);
    if MoveOf(s, l).value.Publish? {
      WrittenMoves(s, l.sid, s.sessions[l.sid].pc.w);
    }
  }

  lemma TablesStay(db: Db)
    ensures TablesMove(db, db)
  {
  }

  lemma StepMoves(s: State, l: Label)
    requires Inv(s) && Next(s, l).Some?
    ensures TablesMove(s.db, Next(s, l).value.db)
  {
    hide TransactionsOk, DbOk, OnceEach, RowsOk, ExecutionsOk, LedgerOk, SessionStep, RowMoves;
    TablesStay(s.db);
    if InSession(l) {
      SessionMoves(s, l);
    } else if l.Settle? {
      DecideKeeps(s.db, l.key, l.approve, l.decider, l.reason);
    } else if l.ClaimAttempt? {
      ClaimKeeps(s.db, l.key);
    } else if l.MarkFailed? {
      MarkKeeps(s.db, l.key);
    }
  }

  lemma MovesCompose(a: Db, b: Db, c: Db)
    requires TablesMove(a, b) && TablesMove(b, c)
    ensures TablesMove(a, c)
  {
    forall k | k in a.rows ensures k in c.rows && RowMoves(a.rows[k], c.rows[k]) {
      assert k in b.rows && RowMoves(a.rows[k], b.rows[k]) && RowMoves(b.rows[k], c.rows[k]);
    }
  }

  /** Over every run no row disappears, decided rows keep their decision, terminal rows stay as they are
      and the log of executions only grows. */
  lemma {:induction false} RunMoves(s: State, ls: seq<Label>)
    requires Inv(s) && IsRun(Next, s, ls)
    ensures TablesMove(s.db, End(Next, s, ls).db)
    decreases |ls|
  {
    hide Inv, Next, RowMoves;
    if ls == [] {
      TablesStay(s.db);
    } else {
      var t := Next(s, ls[0]).value;
      StepMoves(s, ls[0]);
      StepKeeps(s, ls[0]);
      RunMoves(t, ls[1..]);
      MovesCompose(s.db, t.db, End(Next, s, ls).db);
    }
  }

  /** Once a key is executed every later call with that key, at any later time and whatever it is asked
      to run, returns the same receipt and changes nothing. */
  lemma UsedCallReplays(s: State, ls: seq<Label>, k: Key, req: Request, inner: Inner, decision: (Decision, Snapshot))
    requires Inv(s) && IsRun(Next, s, ls) && IsUsed(s.db, k) && req.Key() == k
    ensures s.db.rows[k].receipt.Some?
    ensures var db := End(Next, s, ls).db;
      Call(db, req, inner, decision) == (db, Replay(s.db.rows[k].receipt.value))
  {
    RunMoves(s, ls);
    assert RowOk(s.db, k);
    assert RowMoves(s.db.rows[k], End(Next, s, ls).db.rows[k]);
  }
}
