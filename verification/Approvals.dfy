/**
 The approvals ledger: its rows, the guarded single-row updates of backend/app/orch/store_approvals.py,
 the shadow review of backend/app/orch/store_shadow.py and one gated call of backend/app/orch/gated.py
 taken as a single step.
 */
module Approvals {
  import opened Wrappers
  import opened Payload
  import opened Verdict
  import opened Lanes

  const MAX_EXEC_ATTEMPTS: nat := 3

  datatype Status = Pending | Approved | Rejected | Used | ExecFailed {
    /** A person approved it, or the rule did. */
    predicate Granted() {
      Approved? || Used? || ExecFailed?
    }
  }

  /** What an executed tool returned; an automatic execution adds the rule's note. */
  datatype Receipt = Receipt(result: string, autoNote: bool)

  /** One row of `approvals`, stored under its unique idempotency key. */
  datatype Row = Row(
    args: Args,
    status: Status,
    decidedBy: Option<string>,
    reason: Option<string>,
    usedAt: bool,
    receipt: Option<Receipt>,
    attempts: nat,
    snapshot: Option<Snapshot>)

  /** The approval card shown for a row. */
  datatype Card = Card(status: Status, decidedBy: Option<string>, reason: Option<string>)

  datatype Review = Review(
    lane: Option<Lane>,
    recommendation: Recommendation,
    decision: Status,
    reason: Option<string>,
    agrees: Option<bool>)

  /** By what right an execution happened. */
  datatype Authority = Human | Rule(evidence: Evidence)

  /** A committed effect. */
  datatype Execution = Execution(key: Key, args: Args, receipt: Receipt, authority: Authority)

  /** The committed tables. */
  datatype Db = Db(
    rows: map<Key, Row>,
    cards: map<Key, Card>,
    reviews: map<Key, Review>,
    executed: seq<Execution>,
    waiting: set<ConvId>)

  const EMPTY := Db(map[], map[], map[], [], {})

  // ------------------------------------------------------------ store_approvals.py

  /** `insert_review`: a row without a recommendation counts as human-review, which expects nothing. */
  function ReviewOf(row: Row): Review {
    var rec := if row.snapshot.Some? then row.snapshot.value.recommendation else HumanReview;
    var lane := if row.snapshot.Some? then row.snapshot.value.lane else None;
    var agrees := match rec
      case AutoEligible => Some(row.status == Approved)
      case RejectRecommended => Some(row.status == Rejected)
      case HumanReview => None;
    Review(lane, rec, row.status, row.reason, agrees)
  }

  /** `_decide_sync`: only a pending row is decided; the review and the card follow in the same transaction. */
  function DecideRow(db: Db, k: Key, approve: bool, decider: string, reason: Option<string>): (Db, bool) {
    if k in db.rows && db.rows[k].status == Pending then
      var status := if approve then Approved else Rejected;
      var row := db.rows[k].(status := status, decidedBy := Some(decider), reason := reason);
      (db.(rows := db.rows[k := row],
           reviews := db.reviews[k := ReviewOf(row)],
           cards := if k in db.cards then db.cards[k := Card(status, Some(decider), reason)] else db.cards),
       true)
    else (db, false)
  }

  /** A row `_peek_grant_sync` may return for the conversation. */
  predicate IsGrant(db: Db, conv: ConvId, k: Key) {
    k in db.rows && k.conv == conv && db.rows[k].status == Approved && !db.rows[k].usedAt
  }

  /** `_claim_exec_attempt_sync`: counts an attempt whatever the status of the row. */
  function ClaimRow(db: Db, k: Key): (Db, nat) {
    if k in db.rows then
      var n := db.rows[k].attempts + 1;
      (db.(rows := db.rows[k := db.rows[k].(attempts := n)]), n)
    else (db, 0)
  }

  /** `_mark_exec_failed_sync`. */
  function MarkRow(db: Db, k: Key): Db {
    if k in db.rows && db.rows[k].status == Approved && !db.rows[k].usedAt
    then db.(rows := db.rows[k := db.rows[k].(status := ExecFailed)])
    else db
  }

  // ------------------------------------------------------------ gated.py, one call as one step

  datatype Request = Request(conv: ConvId, action: Action, args: Args, amount: Option<Num>) {
    function Key(): Key {
      KeyOf(conv, action, args)
    }
  }

  datatype Response =
    | Replay(receipt: Receipt)
    | Executed(receipt: Receipt)
    | AwaitsApproval
    | Closed(failed: bool, reason: Option<string>)
    | NeedsApproval
    | PreassessmentOnly
    | NotYourLoan
    | GatedError
  {
    /** Answers that say nothing about the row of the key. */
    predicate Refuses() {
      PreassessmentOnly? || NotYourLoan? || GatedError?
    }
  }

  type Refusal = r: Response | r.Refuses() witness GatedError

  /** What the inner tool does: it returns a result or raises. */
  datatype Inner = Returns(result: string) | Raises

  function PendingRow(args: Args, snapshot: Snapshot): Row {
    Row(args, Pending, None, None, false, None, 0, Some(snapshot))
  }

  function AutoRow(args: Args, receipt: Receipt): Row {
    Row(args, Used, Some("auto-rule"), Some("rule"), true, Some(receipt), 0, None)
  }

  function FinalizeRow(db: Db, k: Key, receipt: Receipt): Db
    requires k in db.rows
  {
    db.(rows := db.rows[k := db.rows[k].(status := Used, receipt := Some(receipt), usedAt := true)],
        executed := db.executed + [Execution(k, db.rows[k].args, receipt, Authority.Human)])
  }

  function InsertAuto(db: Db, k: Key, args: Args, receipt: Receipt, ev: Evidence): Db {
    db.(rows := db.rows[k := AutoRow(args, receipt)],
        executed := db.executed + [Execution(k, args, receipt, Rule(ev))])
  }

  function InsertPending(db: Db, k: Key, args: Args, snapshot: Snapshot): Db {
    db.(rows := db.rows[k := PendingRow(args, snapshot)],
        cards := db.cards[k := Card(Pending, None, None)],
        waiting := db.waiting + {k.conv})
  }

  /** One gated call against the committed tables: replay, claim, pending, terminal, auto or human. */
  function Call(db: Db, req: Request, inner: Inner, decision: (Decision, Snapshot)): (Db, Response) {
    var k := req.Key();
    if k in db.rows then
      var row := db.rows[k];
      match row.status
      case Used => if row.receipt.Some? then (db, Replay(row.receipt.value)) else (db, GatedError)
      case Approved =>
        if inner.Returns? then
          var receipt := Receipt(inner.result, false);
          (FinalizeRow(db, k, receipt), Executed(receipt))
        else (db, GatedError)
      case Pending => (db, AwaitsApproval)
      case Rejected => (db, Closed(false, row.reason))
      case ExecFailed => (db, Closed(true, row.reason))
    else if decision.0.Auto? then
      if inner.Returns? then
        var receipt := Receipt(inner.result, true);
        (InsertAuto(db, k, req.args, receipt, decision.0.evidence), Executed(receipt))
      else (db, GatedError)
    else (InsertPending(db, k, req.args, decision.1), NeedsApproval)
  }

  // ------------------------------------------------------------ what the tables keep

  function CountFor(log: seq<Execution>, k: Key): nat {
    if log == [] then 0 else CountFor(log[..|log| - 1], k) + (if log[|log| - 1].key == k then 1 else 0)
  }

  function Get<V>(m: map<Key, V>, k: Key): Option<V> {
    if k in m then Some(m[k]) else None
  }

  /** A row, its card and its review agree. */
  predicate Consistent(row: Row, card: Option<Card>, review: Option<Review>) {
    // used, receipt and used_at come together
    && (row.status == Used <==> row.receipt.Some?)
    && (row.status == Used <==> row.usedAt)
    // a row without a snapshot was executed by the automatic rule; every other row has a card
    && (row.snapshot.None? ==> row.status == Used && row.decidedBy == Some("auto-rule"))
    && (card.Some? <==> row.snapshot.Some?)
    // the shadow ledger holds one review for each human decision, and only for those
    && (review.Some? <==> row.snapshot.Some? && row.status != Pending)
    // card and review show what was decided
    && (card.Some? ==> card.value.status == Decided(row.status))
    && (review.Some? ==> ReviewFits(review.value, row))
  }

  /** A review keeps what the system had said and what the person decided. They agree when an eligible request
      was approved or a request to be rejected was rejected, disagree the other way round, and cannot be
      compared when the system asked for a person. */
  predicate ReviewFits(v: Review, row: Row) {
    && row.snapshot.Some? && v.lane == row.snapshot.value.lane && v.recommendation == row.snapshot.value.recommendation
    && v.decision == Decided(row.status) && v.reason == row.reason
    && (v.agrees == Some(true) <==>
          || (v.recommendation == AutoEligible && v.decision == Approved)
          || (v.recommendation == RejectRecommended && v.decision == Rejected))
    && (v.agrees == Some(false) <==>
          || (v.recommendation == AutoEligible && v.decision == Rejected)
          || (v.recommendation == RejectRecommended && v.decision == Approved))
  }

  /** What a person has decided about a row of this status. */
  function Decided(s: Status): Status {
    if s.Granted() then Approved else s
  }

  predicate RowOk(db: Db, k: Key)
    requires k in db.rows
  {
    Consistent(db.rows[k], Get(db.cards, k), Get(db.reviews, k))
  }

  ghost predicate DbOk(db: Db) {
    && (forall k :: k in db.rows ==> RowOk(db, k))
    && (forall k :: k in db.cards ==> k in db.rows)
    && (forall k :: k in db.reviews ==> k in db.rows)
  }

  /** The effect of a key is committed once when its row is used and never otherwise. */
  ghost predicate OnceEach(db: Db) {
    forall k :: CountFor(db.executed, k) == (if IsUsed(db, k) then 1 else 0)
  }

  predicate IsUsed(db: Db, k: Key) {
    k in db.rows && db.rows[k].status == Used
  }

  /** How a row may change over any number of committed steps. A terminal row keeps everything but its
      attempt counter, which `_claim_exec_attempt_sync` bumps whatever the status. */
  predicate RowMoves(a: Row, b: Row) {
    && b.args == a.args
    && b.snapshot == a.snapshot
    && a.attempts <= b.attempts
    && match a.status
       case Pending => true
       case Approved => b.status.Granted() && b.decidedBy == a.decidedBy && b.reason == a.reason
       case _ => b == a.(attempts := b.attempts)
  }

  ghost predicate TablesMove(a: Db, b: Db) {
    && (forall k :: k in a.rows ==> k in b.rows && RowMoves(a.rows[k], b.rows[k]))
    && a.executed <= b.executed
  }

  lemma CountForAppend(log: seq<Execution>, e: Execution, k: Key)
    ensures CountFor(log + [e], k) == CountFor(log, k) + (if e.key == k then 1 else 0)
  {
    assert (log + [e])[..|log|] == log;
  }

  /** A step that touches the tables at one key only. */
  ghost predicate OnlyAt(db: Db, db': Db, k: Key) {
    && (forall j :: j != k ==> Get(db'.rows, j) == Get(db.rows, j))
    && (forall j :: j != k ==> Get(db'.cards, j) == Get(db.cards, j))
    && (forall j :: j != k ==> Get(db'.reviews, j) == Get(db.reviews, j))
  }

  lemma SameAt(db: Db, db': Db, k: Key, j: Key)
    requires OnlyAt(db, db', k) && j != k
    ensures (j in db'.rows <==> j in db.rows) && (j in db.rows ==> db'.rows[j] == db.rows[j])
    ensures Get(db'.cards, j) == Get(db.cards, j) && Get(db'.reviews, j) == Get(db.reviews, j)
    ensures (j in db'.cards <==> j in db.cards) && (j in db'.reviews <==> j in db.reviews)
  {
    assert Get(db'.rows, j) == Get(db.rows, j);
    assert Get(db'.cards, j) == Get(db.cards, j);
    assert Get(db'.reviews, j) == Get(db.reviews, j);
  }

  lemma RowsStayOk(db: Db, db': Db, k: Key)
    requires DbOk(db) && OnlyAt(db, db', k) && k in db'.rows && RowOk(db', k)
    ensures DbOk(db')
  {
    hide OnlyAt, Get, Consistent;
    forall j | j != k ensures
      (j in db'.rows ==> RowOk(db', j)) && (j in db'.cards ==> j in db'.rows) && (j in db'.reviews ==> j in db'.rows)
    {
      SameAt(db, db', k, j);
      if j in db.rows {
        assert RowOk(db, j);
      }
    }
  }

  lemma CountsStay(db: Db, db': Db, k: Key)
    requires OnlyAt(db, db', k) && OnceEach(db)
    requires (db'.executed == db.executed && IsUsed(db', k) == IsUsed(db, k))
          || (exists e :: db'.executed == db.executed + [e] && e.key == k && IsUsed(db', k) && !IsUsed(db, k))
    ensures OnceEach(db') && db.executed <= db'.executed
  {
    hide OnlyAt, CountFor;
    forall j ensures CountFor(db'.executed, j) == (if IsUsed(db', j) then 1 else 0) {
      assert CountFor(db.executed, j) == (if IsUsed(db, j) then 1 else 0);
      if j != k {
        SameAt(db, db', k, j);
      }
      if db'.executed != db.executed {
        CountForAppend(db.executed, db'.executed[|db.executed|], j);
      }
    }
  }

  lemma RowsMoveOn(db: Db, db': Db, k: Key)
    requires OnlyAt(db, db', k) && k in db'.rows && (k in db.rows ==> RowMoves(db.rows[k], db'.rows[k]))
    ensures forall j :: j in db.rows ==> j in db'.rows && RowMoves(db.rows[j], db'.rows[j])
  {
    hide OnlyAt;
    forall j | j in db.rows ensures j in db'.rows && RowMoves(db.rows[j], db'.rows[j]) {
      if j != k {
        SameAt(db, db', k, j);
      }
    }
  }

  lemma OneKeyKeeps(db: Db, db': Db, k: Key)
    requires DbOk(db) && OnlyAt(db, db', k)
    requires k in db'.rows && RowOk(db', k)
    requires k in db.rows ==> RowMoves(db.rows[k], db'.rows[k])
    requires OnceEach(db)
    requires (db'.executed == db.executed && IsUsed(db', k) == IsUsed(db, k))
          || (exists e :: db'.executed == db.executed + [e] && e.key == k && IsUsed(db', k) && !IsUsed(db, k))
    ensures DbOk(db') && OnceEach(db') && TablesMove(db, db')
  {
    hide DbOk, OnlyAt, OnceEach, RowOk, RowMoves, IsUsed;
    RowsStayOk(db, db', k);
    CountsStay(db, db', k);
    RowsMoveOn(db, db', k);
  }

  lemma DecidedOnly(db: Db, k: Key, approve: bool, decider: string, reason: Option<string>)
    ensures OnlyAt(db, DecideRow(db, k, approve, decider, reason).0, k)
  {
    hide ReviewOf;
  }

  lemma DecidedStatus(db: Db, k: Key, approve: bool, decider: string, reason: Option<string>)
    ensures var (db', decided) := DecideRow(db, k, approve, decider, reason);
      && db'.executed == db.executed && db'.waiting == db.waiting
      && (decided <==> k in db.rows && db.rows[k].status == Pending)
      && (decided ==> k in db'.rows && db'.rows[k].status == (if approve then Approved else Rejected)
                      && Get(db'.reviews, k) == Some(ReviewOf(db'.rows[k])))
      && (!decided ==> db' == db)
  {
    hide ReviewOf;
  }

  lemma DecidedRow(db: Db, k: Key, approve: bool, decider: string, reason: Option<string>)
    requires k in db.rows && db.rows[k].status == Pending && RowOk(db, k)
    ensures var db' := DecideRow(db, k, approve, decider, reason).0;
      && k in db'.rows && RowOk(db', k) && RowMoves(db.rows[k], db'.rows[k])
      && db'.executed == db.executed && IsUsed(db', k) == IsUsed(db, k)
  {
  }

  lemma NothingKeeps(db: Db)
    requires DbOk(db) && OnceEach(db)
    ensures TablesMove(db, db)
  {
  }

  /** A decision touches a pending row, its card and its review only, and commits no effect. */
  lemma DecideKeeps(db: Db, k: Key, approve: bool, decider: string, reason: Option<string>)
    requires DbOk(db) && OnceEach(db)
    ensures var (db', decided) := DecideRow(db, k, approve, decider, reason);
      && DbOk(db') && OnceEach(db') && TablesMove(db, db')
      && OnlyAt(db, db', k) && db'.executed == db.executed && db'.waiting == db.waiting
      && (decided <==> k in db.rows && db.rows[k].status == Pending)
      && (decided ==> k in db'.rows && db'.rows[k].status == (if approve then Approved else Rejected)
                      && Get(db'.reviews, k) == Some(ReviewOf(db'.rows[k])))
      && (!decided ==> db' == db)
  {
    NothingKeeps(db);
    DecidedOnly(db, k, approve, decider, reason);
    DecidedStatus(db, k, approve, decider, reason);
    if k in db.rows && db.rows[k].status == Pending {
      assert RowOk(db, k);
      hide *;
      DecidedRow(db, k, approve, decider, reason);
      OneKeyKeeps(db, DecideRow(db, k, approve, decider, reason).0, k);
    } else {
      hide DbOk, OnceEach, TablesMove, OnlyAt;
    }
  }

  lemma ClaimKeeps(db: Db, k: Key)
    requires DbOk(db) && OnceEach(db)
    ensures var db' := ClaimRow(db, k).0; DbOk(db') && OnceEach(db') && TablesMove(db, db')
  {
    var db' := ClaimRow(db, k).0;
    if k in db.rows {
      assert RowOk(db, k);
      hide DbOk, OnceEach, TablesMove;
      OneKeyKeeps(db, db', k);
    } else {
      assert db' == db;
    }
  }

  lemma MarkKeeps(db: Db, k: Key)
    requires DbOk(db) && OnceEach(db)
    ensures var db' := MarkRow(db, k); DbOk(db') && OnceEach(db') && TablesMove(db, db')
  {
    var db' := MarkRow(db, k);
    if k in db.rows {
      assert RowOk(db, k);
      hide DbOk, OnceEach, TablesMove;
      OneKeyKeeps(db, db', k);
    } else {
      assert db' == db;
    }
  }

  lemma FinalizeKeeps(db: Db, k: Key, receipt: Receipt)
    requires DbOk(db) && OnceEach(db) && k in db.rows && db.rows[k].status == Approved
    ensures var db' := FinalizeRow(db, k, receipt); DbOk(db') && OnceEach(db') && TablesMove(db, db')
  {
    var db' := FinalizeRow(db, k, receipt);
    assert RowOk(db, k);
    assert exists e :: db'.executed == db.executed + [e] && e.key == k;
    OneKeyKeeps(db, db', k);
  }

  lemma InsertAutoKeeps(db: Db, k: Key, args: Args, receipt: Receipt, ev: Evidence)
    requires DbOk(db) && OnceEach(db) && k !in db.rows
    ensures var db' := InsertAuto(db, k, args, receipt, ev); DbOk(db') && OnceEach(db') && TablesMove(db, db')
  {
    var db' := InsertAuto(db, k, args, receipt, ev);
    assert exists e :: db'.executed == db.executed + [e] && e.key == k;
    OneKeyKeeps(db, db', k);
  }

  lemma InsertPendingKeeps(db: Db, k: Key, args: Args, snapshot: Snapshot)
    requires DbOk(db) && OnceEach(db) && k !in db.rows
    ensures var db' := InsertPending(db, k, args, snapshot); DbOk(db') && OnceEach(db') && TablesMove(db, db')
  {
    var db' := InsertPending(db, k, args, snapshot);
    OneKeyKeeps(db, db', k);
  }

  /** One gated call keeps the ledger consistent and never repeats an effect. */
  lemma CallKeeps(db: Db, req: Request, inner: Inner, decision: (Decision, Snapshot))
    requires DbOk(db) && OnceEach(db)
    ensures var db' := Call(db, req, inner, decision).0; DbOk(db') && OnceEach(db') && TablesMove(db, db')
  {
    var k := req.Key();
    if k in db.rows {
      if db.rows[k].status == Approved && inner.Returns? {
        FinalizeKeeps(db, k, Receipt(inner.result, false));
      } else {
        assert Call(db, req, inner, decision).0 == db;
      }
    } else if decision.0.Auto? {
      if inner.Returns? {
        InsertAutoKeeps(db, k, req.args, Receipt(inner.result, true), decision.0.evidence);
      }
    } else {
      InsertPendingKeeps(db, k, req.args, decision.1);
    }
  }

  /** After an execution every later call with the same key returns its receipt and changes nothing. */
  lemma ExecutedReplays(db: Db, req: Request, inner: Inner, decision: (Decision, Snapshot),
                        later: Request, inner2: Inner, decision2: (Decision, Snapshot))
    requires DbOk(db) && later.Key() == req.Key()
    requires Call(db, req, inner, decision).1.Executed? || Call(db, req, inner, decision).1.Replay?
    ensures var (db', r) := Call(db, req, inner, decision);
      Call(db', later, inner2, decision2) == (db', Replay(r.receipt))
  {
  }

  // ------------------------------------------------------------ the ledger as it is updated in place

  class ApprovalStore {
    var rows: map<Key, Row>
    var cards: map<Key, Card>
    var reviews: map<Key, Review>
    var executed: seq<Execution>
    var waiting: set<ConvId>

    ghost function View(): Db
      reads this
    {
      Db(rows, cards, reviews, executed, waiting)
    }

    constructor ()
      ensures View() == EMPTY && DbOk(View()) && OnceEach(View())
    {
      rows, cards, reviews, executed, waiting := map[], map[], map[], [], {};
    }

    method Decide(k: Key, approve: bool, decider: string, reason: Option<string>) returns (decided: bool)
      modifies this
      ensures (View(), decided) == DecideRow(old(View()), k, approve, decider, reason)
    {
      if k !in rows || rows[k].status != Pending {
        return false;
      }
      var status := if approve then Approved else Rejected;
      rows := rows[k := rows[k].(status := status, decidedBy := Some(decider), reason := reason)];
      reviews := reviews[k := ReviewOf(rows[k])];
      if k in cards {
        cards := cards[k := Card(status, Some(decider), reason)];
      }
      return true;
    }

    /** `id` gives the id column, which a row keeps from its insertion on. */
    method PeekGrant(conv: ConvId, id: Key -> nat) returns (grant: Option<Key>)
      ensures grant.Some? ==> IsGrant(View(), conv, grant.value)
      ensures grant.Some? ==> forall k :: IsGrant(View(), conv, k) ==> id(grant.value) <= id(k)
      ensures grant.None? ==> forall k :: !IsGrant(View(), conv, k)
    {
      var left := set k | k in rows && k.conv == conv && rows[k].status == Approved && !rows[k].usedAt;
      ghost var grants := left;
      grant := None;
      while left != {}
        invariant left <= grants
        invariant grant.None? ==> left == grants
        invariant grant.Some? ==> grant.value in grants - left
        invariant grant.Some? ==> forall k :: k in grants - left ==> id(grant.value) <= id(k)
        decreases |left|
      {
        var k :| k in left;
        left := left - {k};
        if grant.None? || id(k) < id(grant.value) {
          grant := Some(k);
        }
      }
      assert forall k :: IsGrant(View(), conv, k) ==> k in grants;
    }

    method ClaimExecAttempt(k: Key) returns (attempt: nat)
      modifies this
      ensures (View(), attempt) == ClaimRow(old(View()), k)
    {
      if k !in rows {
        return 0;
      }
      attempt := rows[k].attempts + 1;
      rows := rows[k := rows[k].(attempts := attempt)];
    }

    method MarkExecFailed(k: Key)
      modifies this
      ensures View() == MarkRow(old(View()), k)
    {
      if k in rows && rows[k].status == Approved && !rows[k].usedAt {
        rows := rows[k := rows[k].(status := ExecFailed)];
      }
    }

    /** `_branch_receipt_replay`. */
    method BranchReplay(k: Key) returns (r: Option<Response>)
      ensures r == if k in rows && rows[k].status == Used && rows[k].receipt.Some?
                   then Some(Replay(rows[k].receipt.value)) else None
    {
      r := None;
      if k in rows && rows[k].status == Used && rows[k].receipt.Some? {
        r := Some(Replay(rows[k].receipt.value));
      }
    }

    /** `_branch_claim`: runs the tool once under the row lock and finalizes the receipt. */
    method BranchClaim(k: Key, inner: Inner) returns (r: Option<Response>)
      modifies this
      ensures !(k in old(rows) && old(rows)[k].status == Approved) ==> r == None && View() == old(View())
      ensures k in old(rows) && old(rows)[k].status == Approved ==>
        if inner.Raises? then r == Some(GatedError) && View() == old(View())
        else r == Some(Executed(Receipt(inner.result, false)))
             && View() == FinalizeRow(old(View()), k, Receipt(inner.result, false))
    {
      if k !in rows || rows[k].status != Approved {
        return None;
      }
      match inner
      case Raises =>
        return Some(GatedError);
      case Returns(result) =>
        var receipt := Receipt(result, false);
        executed := executed + [Execution(k, rows[k].args, receipt, Authority.Human)];
        rows := rows[k := rows[k].(status := Used, receipt := Some(receipt), usedAt := true)];
        return Some(Executed(receipt));
    }

    /** `_branch_pending` and `_branch_terminal`. */
    method BranchWaiting(k: Key) returns (r: Option<Response>)
      ensures r == if k !in rows then None
                   else match rows[k].status
                     case Pending => Some(AwaitsApproval)
                     case Rejected => Some(Closed(false, rows[k].reason))
                     case ExecFailed => Some(Closed(true, rows[k].reason))
                     case _ => None
    {
      if k in rows && rows[k].status == Pending {
        return Some(AwaitsApproval);
      }
      if k in rows && (rows[k].status == Rejected || rows[k].status == ExecFailed) {
        return Some(Closed(rows[k].status == ExecFailed, rows[k].reason));
      }
      return None;
    }

    /** The locked part of `_gated_txn` when no other transaction interleaves: the branches in order,
        then the decision. */
    method GatedTxn(req: Request, inner: Inner, decision: (Decision, Snapshot)) returns (r: Response)
      requires DbOk(View())
      modifies this
      ensures (View(), r) == Call(old(View()), req, inner, decision)
    {
      var k := req.Key();
      assert k in rows ==> RowOk(View(), k);
      var hit := BranchReplay(k);
      if hit.None? {
        hit := BranchClaim(k, inner);
      }
      if hit.None? {
        hit := BranchWaiting(k);
      }
      if hit.Some? {
        return hit.value;
      }
      match decision.0
      case Auto(ev) =>
        match inner {
          case Raises =>
            return GatedError;
          case Returns(result) =>
            var receipt := Receipt(result, true);
            executed := executed + [Execution(k, req.args, receipt, Rule(ev))];
            rows := rows[k := AutoRow(req.args, receipt)];
            return Executed(receipt);
        }
      case Human =>
        rows := rows[k := PendingRow(req.args, decision.1)];
        cards := cards[k := Card(Pending, None, None)];
        waiting := waiting + {k.conv};
        return NeedsApproval;
    }
  }
}
