/**
 What the log of executions owes to the labels of the run: the settings a transaction read, the ruling it
 made, the decision of a person.
 */
module GateHistory {
  import opened Wrappers
  import opened Machines
  import opened Payload
  import opened Verdict
  import opened Approvals
  import opened GateMachine
  import GateSafety
  import GateAnswers

  /** What the threshold row held whenever a transaction read it; None stands for no row, Some(None) for a
      value that cannot be read. */
  function SettingsReadBy(ls: seq<Label>, sid: Sid): seq<Option<Option<Num>>> {
    if ls == [] then []
    else
      var l := ls[|ls| - 1];
      SettingsReadBy(ls[..|ls| - 1], sid) + (if l.ReadSetting? && l.sid == sid then [l.row] else [])
  }

  /** The rulings of a transaction: whether it could read the assessments, and the maximum it read. */
  function RulingsBy(ls: seq<Label>, sid: Sid): seq<(bool, Option<Num>)> {
    if ls == [] then []
    else
      var l := ls[|ls| - 1];
      RulingsBy(ls[..|ls| - 1], sid) + (if l.Rule? && l.sid == sid then [(l.readable, l.setting)] else [])
  }

  /** The threshold is the finite number of the row, or 500 million where there is no row. */
  predicate Configures(row: Option<Option<Num>>, threshold: real) {
    row == Some(Some(Finite(threshold))) || (row == None && threshold == 500_000_000.0)
  }

  /** The maximum is the number that was read, or two billion where there is none. */
  predicate ConfiguresMax(setting: Option<Num>, autoMax: Num) {
    setting == Some(autoMax) || (setting == None && autoMax == Finite(2_000_000_000.0))
  }

  predicate BeforeSetting(pc: Pc) {
    pc.CheckLinkFirst? || pc.ReadThreshold?
  }

  predicate BeforeRuling(pc: Pc) {
    || pc.CheckLinkAgain? || pc.CheckOwner? || pc.TakeLock? || pc.ReadReceipt? || pc.SelectGrant?
    || pc.ReadPending? || pc.ReadTerminal? || pc.Decide?
  }

  /** What a transaction has read so far, by its place. */
  predicate HasRead(rows: seq<Option<Option<Num>>>, rulings: seq<(bool, Option<Num>)>, se: Session) {
    if BeforeSetting(se.pc) then rows == [] && rulings == []
    else if BeforeRuling(se.pc) then
      |rows| == 1 && rulings == [] && (se.threshold > 0.0 ==> Configures(rows[0], se.threshold))
    else if GateSafety.EvidenceOf(se.pc).Some? then
      var ev := GateSafety.EvidenceOf(se.pc).value;
      && |rows| == 1 && |rulings| == 1 && ev.threshold == se.threshold
      && (se.threshold > 0.0 ==> Configures(rows[0], se.threshold))
      && ConfiguresMax(rulings[0].1, ev.autoMax) && (rulings[0].0 <==> !ev.reading.Unread?)
    else |rows| <= 1 && |rulings| <= 1
  }

  ghost predicate HistoryOk(ls: seq<Label>, s: State) {
    forall sid ::
      if sid in s.sessions then HasRead(SettingsReadBy(ls, sid), RulingsBy(ls, sid), s.sessions[sid])
      else SettingsReadBy(ls, sid) == [] && RulingsBy(ls, sid) == []
  }

  lemma ReadMore(ls: seq<Label>, l: Label, sid: Sid)
    ensures SettingsReadBy(ls + [l], sid)
         == SettingsReadBy(ls, sid) + (if l.ReadSetting? && l.sid == sid then [l.row] else [])
    ensures RulingsBy(ls + [l], sid)
         == RulingsBy(ls, sid) + (if l.Rule? && l.sid == sid then [(l.readable, l.setting)] else [])
    ensures !(InSession(l) && l.sid == sid) ==>
      SettingsReadBy(ls + [l], sid) == SettingsReadBy(ls, sid) && RulingsBy(ls + [l], sid) == RulingsBy(ls, sid)
  {
    assert (ls + [l])[..|ls|] == ls;
  }

  /** The setting that a transaction reads. */
  lemma SettingConfigures(row: Option<Option<Num>>)
    ensures Threshold(row) > 0.0 ==> Configures(row, Threshold(row))
  {
  }

  // ------------------------------------------------------------ one step

  /** What a statement leaves of its transaction. */
  function After(se: Session, m: GateMachine.Move): Session {
    match m
    case Goto(pc) => se.(pc := pc)
    case Configure(t) => se.(threshold := t, pc := CheckLinkAgain)
    case LockKey => se.(pc := ReadReceipt)
    case LockRow => se.(pc := RunGranted)
    case Publish(w) => se.(pc := Done(WriteAnswer(w)))
    case Close(r) => se.(pc := Done(r))
  }

  lemma PerformIsAfter(s: State, sid: Sid, m: GateMachine.Move)
    requires sid in s.sessions
    ensures sid in Perform(s, sid, m).sessions && Perform(s, sid, m).sessions[sid] == After(s.sessions[sid], m)
  {
    hide Written, WriteAnswer;
  }

  /** The rows and rulings of a transaction after a label of its own. */
  lemma MoveReads(v: View, keyFree: bool, rowFree: bool, reading: Reading, l: Label,
                  rows: seq<Option<Option<Num>>>, rulings: seq<(bool, Option<Num>)>)
    requires InSession(l) && Advance(v, keyFree, rowFree, reading, l).Some?
    requires l.Rule? ==> (l.readable <==> !reading.Unread?)
    requires HasRead(rows, rulings, v.se)
    ensures HasRead(rows + (if l.ReadSetting? then [l.row] else []),
                    rulings + (if l.Rule? then [(l.readable, l.setting)] else []),
                    After(v.se, Advance(v, keyFree, rowFree, reading, l).value))
  {
    hide Threshold, GatedDecision;
    if l.ReadSetting? {
      SettingConfigures(l.row);
    } else if l.Rule? {
      AutoIff(v.se.req.action, v.se.req.amount, reading, v.se.threshold, AutoMax(l.setting));
    }
  }

  lemma OwnReads(ls: seq<Label>, s: State, l: Label)
    requires HistoryOk(ls, s) && InSession(l) && SessionStep(s, l).Some?
    ensures l.sid in s.sessions && l.sid in SessionStep(s, l).value.sessions
    ensures HasRead(SettingsReadBy(ls + [l], l.sid), RulingsBy(ls + [l], l.sid), SessionStep(s, l).value.sessions[l.sid])
  {
    hide Advance, Perform, HasRead, After, SettingsReadBy, RulingsBy;
    var se := s.sessions[l.sid];
    assert HasRead(SettingsReadBy(ls, l.sid), RulingsBy(ls, l.sid), se);
    var reading := if l.Rule? then ReadingOf(s, se.req.action, se.req.args, l.readable) else Unread;
    ReadMore(ls, l, l.sid);
    hide HistoryOk, OwnerOf, Latest;
    MoveReads(ViewOf(s, l.sid), se.key !in s.locks, se.key !in s.rowLocks, reading, l,
              SettingsReadBy(ls, l.sid), RulingsBy(ls, l.sid));
    PerformIsAfter(s, l.sid, MoveOf(s, l).value);
  }

  lemma HistoryKeeps(ls: seq<Label>, s: State, l: Label)
    requires HistoryOk(ls, s) && Next(s, l).Some?
    ensures HistoryOk(ls + [l], Next(s, l).value)
  {
    hide SessionStep, HasRead, SettingsReadBy, RulingsBy, KeyOf, AmountOf;
    var t := Next(s, l).value;
    if InSession(l) {
      OwnReads(ls, s, l);
      GateAnswers.SessionFrame(s, l);
    }
    forall sid
      ensures if sid in t.sessions then HasRead(SettingsReadBy(ls + [l], sid), RulingsBy(ls + [l], sid), t.sessions[sid])
              else SettingsReadBy(ls + [l], sid) == [] && RulingsBy(ls + [l], sid) == []
    {
      ReadMore(ls, l, sid);
      if !(InSession(l) && l.sid == sid) {
        GateAnswers.OthersStay(s, l, sid);
        hide Next;
        if sid in t.sessions && sid !in s.sessions {
          NothingReadYet(t.sessions[sid]);
        }
      }
    }
  }

  lemma NothingReadYet(se: Session)
    requires se.pc == CheckLinkFirst
    ensures HasRead([], [], se)
  {
  }

  lemma NothingYet(s: State)
    requires Initial(s)
    ensures HistoryOk([], s)
  {
  }

  lemma {:induction false} HistoryHolds(s: State, ls: seq<Label>)
    requires Initial(s) && IsRun(Next, s, ls)
    ensures HistoryOk(ls, End(Next, s, ls))
    decreases |ls|
  {
    hide Next, HistoryOk, Initial;
    if ls == [] {
      NothingYet(s);
    } else {
      var n := |ls| - 1;
      LastStep(Next, s, ls);
      hide IsRun, End;
      HistoryHolds(s, ls[..n]);
      HistoryKeeps(ls[..n], End(Next, s, ls[..n]), ls[n]);
      assert ls[..n] + [ls[n]] == ls;
    }
  }

  // ------------------------------------------------------------ where an execution comes from

  /** The execution that a transaction at its commit adds to the log. */
  predicate Commits(se: Session, e: Execution) {
    && se.pc.CommitWrite? && !se.pc.w.PendingInsert? && e.key == se.key
    && e.authority == (if se.pc.w.AutoInsert? then Authority.Rule(se.pc.w.ev) else Authority.Human)
  }

  lemma StepExecutes(s: State, l: Label)
    requires Next(s, l).Some?
    ensures var t := Next(s, l).value;
      || t.db.executed == s.db.executed
      || (l.Step? && l.sid in s.sessions && |t.db.executed| == |s.db.executed| + 1
          && s.db.executed == t.db.executed[..|s.db.executed|]
          && Commits(s.sessions[l.sid], t.db.executed[|s.db.executed|]))
  {
    hide ReviewOf, KeyOf, AmountOf, GatedDecision, ReadingOf, Perform, Advance;
    if InSession(l) {
      var v := ViewOf(s, l.sid);
      var se := s.sessions[l.sid];
      var reading := if l.Rule? then ReadingOf(s, se.req.action, se.req.args, l.readable) else Unread;
      OnlyStepsPublish(v, se.key !in s.locks, se.key !in s.rowLocks, reading, l);
      PerformExecutes(s, l.sid, MoveOf(s, l).value);
    }
  }

  lemma OnlyStepsPublish(v: View, keyFree: bool, rowFree: bool, reading: Reading, l: Label)
    requires InSession(l) && Advance(v, keyFree, rowFree, reading, l).Some?
    ensures var m := Advance(v, keyFree, rowFree, reading, l).value;
      m.Publish? ==> l.Step? && v.se.pc == CommitWrite(m.w)
  {
    hide GatedDecision;
  }

  lemma PerformExecutes(s: State, sid: Sid, m: GateMachine.Move)
    requires sid in s.sessions && (m.Publish? ==> s.sessions[sid].pc == CommitWrite(m.w))
    ensures var t := Perform(s, sid, m);
      || t.db.executed == s.db.executed
      || (m.Publish? && |t.db.executed| == |s.db.executed| + 1
          && s.db.executed == t.db.executed[..|s.db.executed|]
          && Commits(s.sessions[sid], t.db.executed[|s.db.executed|]))
  {
    hide AutoRow, PendingRow;
  }

  /** The label that committed an execution, and the transaction as it stood before it. */
  lemma {:induction false} CommittedAt(s: State, ls: seq<Label>, i: nat) returns (m: nat)
    requires Initial(s) && IsRun(Next, s, ls) && i < |End(Next, s, ls).db.executed|
    ensures m < |ls| && ls[m].Step? && IsRun(Next, s, ls[..m])
    ensures var t := End(Next, s, ls[..m]);
      && |t.db.executed| == i && ls[m].sid in t.sessions
      && Commits(t.sessions[ls[m].sid], End(Next, s, ls).db.executed[i])
    decreases |ls|
  {
    var n := |ls| - 1;
    assert ls != [];
    hide Next, Commits;
    LastStep(Next, s, ls);
    var t := End(Next, s, ls[..n]);
    StepExecutes(t, ls[n]);
    if i < |t.db.executed| {
      m := CommittedAt(s, ls[..n], i);
      assert ls[..n][..m] == ls[..m];
    } else {
      m := n;
    }
  }

  /** The label by which a person approved a key, while its row was pending. */
  lemma {:induction false} ApprovedAt(s: State, ls: seq<Label>, k: Key) returns (n: nat)
    requires Initial(s) && IsRun(Next, s, ls) && k in End(Next, s, ls).approved
    ensures n < |ls| && ls[n].Settle? && ls[n].key == k && ls[n].approve && IsRun(Next, s, ls[..n])
    ensures var t := End(Next, s, ls[..n]); k in t.db.rows && t.db.rows[k].status == Pending
    decreases |ls|
  {
    var last := |ls| - 1;
    assert ls != [];
    hide IsRun, End;
    LastStep(Next, s, ls);
    var t := End(Next, s, ls[..last]);
    if k in t.approved {
      hide Next;
      n := ApprovedAt(s, ls[..last], k);
      assert ls[..last][..n] == ls[..n];
    } else {
      hide ReviewOf, SessionStep;
      if !ls[last].Settle? {
        ApprovalsStay(t, ls[last]);
      }
      n := last;
    }
  }

  lemma ApprovalsStay(s: State, l: Label)
    requires Next(s, l).Some? && !l.Settle?
    ensures Next(s, l).value.approved == s.approved
  {
    hide KeyOf, AmountOf, GatedDecision, ReadingOf, Written, Advance;
  }

  // ------------------------------------------------------------ the authority chain

  /** Somebody approved the key while its row was pending. */
  ghost predicate ApprovedBefore(s: State, ls: seq<Label>, k: Key) {
    exists n: nat :: n < |ls| && SettlesAt(s, ls, n, k)
  }

  ghost predicate SettlesAt(s: State, ls: seq<Label>, n: nat, k: Key)
    requires n < |ls|
  {
    && ls[n].Settle? && ls[n].key == k && ls[n].approve && IsRun(Next, s, ls[..n])
    && var t := End(Next, s, ls[..n]); k in t.db.rows && t.db.rows[k].status == Pending
  }

  /** The transaction read its settings and ruled once, and the evidence is what it read. */
  predicate ReadFirst(ls: seq<Label>, sid: Sid, ev: Evidence) {
    var rows, rulings := SettingsReadBy(ls, sid), RulingsBy(ls, sid);
    && |rows| == 1 && Configures(rows[0], ev.threshold)
    && |rulings| == 1 && ConfiguresMax(rulings[0].1, ev.autoMax) && (rulings[0].0 <==> !ev.reading.Unread?)
  }

  /** The amount that the payload names; what a text amount reads as is left open. */
  predicate AmountNamed(args: Args, amount: real) {
    && "amount" in args
    && match args["amount"]
       case Int(i) => amount == i as real
       case Float(x) => x == Finite(amount)
       case Bool(b) => amount == if b then 1.0 else 0.0
       case Text(_) => true
       case Null => false
  }

  /** The authority chain. Every execution was committed by one statement of one transaction. Before it a
      person approved the key while its row was pending, or it is a plain disbursement that the rule allows
      on what the transaction had read: the threshold and the maximum that the settings rows held, and what
      the assessments said of the borrower; from the threshold on that is a clean assessment of the
      borrower, the latest at the time. */
  lemma AuthorityChain(s: State, ls: seq<Label>, i: nat) returns (m: nat)
    requires Initial(s) && IsRun(Next, s, ls) && i < |End(Next, s, ls).db.executed|
    ensures m < |ls| && ls[m].Step? && IsRun(Next, s, ls[..m]) && |End(Next, s, ls[..m]).db.executed| == i
    ensures var t := End(Next, s, ls); var e := t.db.executed[i];
      match e.authority
      case Human => ApprovedBefore(s, ls[..m], e.key)
      case Rule(ev) =>
        && e.key.action == Disburse
        && AmountNamed(e.args, ev.amount)
        && RuleFits(ev)
        && ReadFirst(ls[..m], ls[m].sid, ev)
        && GateSafety.ReadingHolds(t.loanOwner, t.ledger, e.args, ev.reading)
        && (ev.amount >= ev.threshold ==> GateSafety.BackedByAssessment(t.loanOwner, t.ledger, e.args, ev.reading))
  {
    m := CommittedAt(s, ls, i);
    hide Next;
    GateSafety.ExecutionsAreAuthorized(s, ls, i);
    var e := End(Next, s, ls).db.executed[i];
    var u := End(Next, s, ls[..m]);
    HistoryHolds(s, ls[..m]);
    var se := u.sessions[ls[m].sid];
    assert HasRead(SettingsReadBy(ls[..m], ls[m].sid), RulingsBy(ls[..m], ls[m].sid), se);
    if e.authority.Human? {
      GrantIsApproved(s, ls[..m], ls[m].sid);
      var n := ApprovedAt(s, ls[..m], e.key);
      assert ls[..m][..n] == ls[..n] && SettlesAt(s, ls[..m], n, e.key);
    }
  }

  /** A transaction about to finalize holds a row that was approved. */
  lemma GrantIsApproved(s: State, ls: seq<Label>, sid: Sid)
    requires Initial(s) && IsRun(Next, s, ls) && sid in End(Next, s, ls).sessions
    requires var pc := End(Next, s, ls).sessions[sid].pc; pc.CommitWrite? && pc.w.Finalize?
    ensures End(Next, s, ls).sessions[sid].key in End(Next, s, ls).approved
  {
    hide Next, KeyOf, AmountOf;
    GateSafety.InitialOk(s);
    GateSafety.ReachableOk(s, ls);
    var t := End(Next, s, ls);
    assert GateSafety.Fits(ViewOf(t, sid));
    var k := t.sessions[sid].key;
    assert GateSafety.RowPlaced(k, t.db.rows[k], t.convs, t.linked, t.approved);
  }

  /** When a transaction finds that the threshold row holds a number of zero or less, no finite number, or
      nothing readable, then none of its statements ever commits an execution by the rule. */
  lemma ClosedSettingNeverPays(s: State, ls: seq<Label>, n: nat, i: nat) returns (m: nat)
    requires Initial(s) && IsRun(Next, s, ls) && i < |End(Next, s, ls).db.executed|
    requires n < |ls| && ls[n].ReadSetting? && ls[n].row.Some?
    requires forall r :: ls[n].row == Some(Some(Finite(r))) ==> r <= 0.0
    ensures m < |ls| && ls[m].Step? && IsRun(Next, s, ls[..m]) && |End(Next, s, ls[..m]).db.executed| == i
    ensures ls[m].sid == ls[n].sid ==> End(Next, s, ls).db.executed[i].authority.Human?
  {
    hide Next, GateSafety.ReadingHolds, GateSafety.BackedByAssessment, AmountOf, SettingsReadBy, RulingsBy;
    m := AuthorityChain(s, ls, i);
    var sid, a := ls[n].sid, End(Next, s, ls).db.executed[i].authority;
    if ls[m].sid == sid && a.Rule? {
      ReadsOnce(s, ls, sid);
      SettingIsListed(ls, n, sid);
      SettingsAreMore(ls, m, sid);
    }
  }

  lemma ReadsOnce(s: State, ls: seq<Label>, sid: Sid)
    requires Initial(s) && IsRun(Next, s, ls)
    ensures |SettingsReadBy(ls, sid)| <= 1
  {
    HistoryHolds(s, ls);
    hide Next;
  }

  lemma {:induction false} SettingIsListed(ls: seq<Label>, n: nat, sid: Sid)
    requires n < |ls| && ls[n].ReadSetting? && ls[n].sid == sid
    ensures ls[n].row in SettingsReadBy(ls, sid)
  {
    if n < |ls| - 1 {
      SettingIsListed(ls[..|ls| - 1], n, sid);
    }
  }

  lemma {:induction false} SettingsAreMore(ls: seq<Label>, m: nat, sid: Sid)
    requires m <= |ls|
    ensures SettingsReadBy(ls[..m], sid) <= SettingsReadBy(ls, sid)
  {
    if m < |ls| {
      SettingsAreMore(ls[..|ls| - 1], m, sid);
      assert ls[..|ls| - 1][..m] == ls[..m];
    } else {
      assert ls[..m] == ls;
    }
  }
}
