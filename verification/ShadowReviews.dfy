/** The mismatch list over the reviews that the approval gate writes. */
module ShadowReviews {
  import opened Wrappers
  import opened Machines
  import opened Lanes
  import opened Payload
  import opened Verdict
  import opened Approvals
  import opened GateMachine
  import GateSafety
  import Cursor
  import ShadowPages

  function LaneText(lane: Lane): string {
    match lane
    case Green => "green"
    case Yellow => "yellow"
    case Red => "red"
  }

  /** The row of `shadow_reviews` that holds a review. */
  function RowOf(id: nat, at: int, v: Review): ShadowPages.Row {
    ShadowPages.Row(id, at, if v.lane.Some? then Some(LaneText(v.lane.value)) else None, v.agrees)
  }

  predicate InRange(f: Cursor.Filters, at: int) {
    (f.fromAt == None || f.fromAt.value <= at) && (f.toAt == None || at < f.toAt.value)
  }

  /** In every reachable state of the gate a review is listed as a mismatch exactly when a person decided the
      row against the recommendation that was recorded for it: an eligible request rejected, or one to be
      rejected approved; in the range of time and in the lane that are asked for. */
  lemma ListedIff(s: State, ls: seq<Label>, k: Key, id: nat, at: int, f: Cursor.Filters)
    requires Initial(s) && IsRun(Next, s, ls) && k in End(Next, s, ls).db.reviews
    ensures var db := End(Next, s, ls).db;
      && k in db.rows && db.rows[k].snapshot.Some?
      && var row, snap := db.rows[k], db.rows[k].snapshot.value;
         ShadowPages.Passes(f, RowOf(id, at, db.reviews[k])) <==>
           && (|| (snap.recommendation == AutoEligible && row.status == Rejected)
               || (snap.recommendation == RejectRecommended && row.status in {Approved, Used, ExecFailed}))
           && InRange(f, at)
           && (f.lane == None || (snap.lane.Some? && f.lane == Some(LaneText(snap.lane.value))))
  {
    GateSafety.InitialOk(s);
    GateSafety.ReachableOk(s, ls);
    ReviewListedIff(End(Next, s, ls).db, k, id, at, f);
    hide GateSafety.Inv, Next;
  }

  lemma ReviewListedIff(db: Db, k: Key, id: nat, at: int, f: Cursor.Filters)
    requires DbOk(db) && k in db.reviews
    ensures k in db.rows && db.rows[k].snapshot.Some?
    ensures var row, snap := db.rows[k], db.rows[k].snapshot.value;
      ShadowPages.Passes(f, RowOf(id, at, db.reviews[k])) <==>
        && (|| (snap.recommendation == AutoEligible && row.status == Rejected)
            || (snap.recommendation == RejectRecommended && row.status in {Approved, Used, ExecFailed}))
        && InRange(f, at)
        && (f.lane == None || (snap.lane.Some? && f.lane == Some(LaneText(snap.lane.value))))
  {
    assert k in db.rows && RowOk(db, k);
    hide DbOk, LaneText;
  }
}
