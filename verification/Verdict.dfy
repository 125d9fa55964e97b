/** Who may release money: backend/app/orch/verdict.py. */
module Verdict {
  import opened Wrappers
  import opened Payload
  import opened Lanes

  const AUTO_APPROVE_THRESHOLD: real := 500_000_000.0
  const AUTO_MAX_FALLBACK: real := 2_000_000_000.0

  datatype Recommendation = RejectRecommended | AutoEligible | HumanReview

  datatype Snapshot = Snapshot(assessment: Option<nat>, lane: Option<Lane>, recommendation: Recommendation)

  /** The assessment found for the owner: its ledger position and lane. */
  datatype Found = Found(id: nat, lane: Lane)

  /** What looking up the latest assessment gave: the tables could not be read, the payload names no known
      loan or application with an owner, or the answer for that owner from the first `seen` rows. */
  datatype Reading = Unread | Unnamed | OfOwner(owner: string, seen: nat, found: Option<Found>) {
    function Verdict(): Option<Found> {
      if OfOwner? then found else None
    }
  }

  /** What the automatic rule relied on. */
  datatype Evidence = Evidence(amount: real, threshold: real, reading: Reading, autoMax: Num)

  datatype Decision = Auto(evidence: Evidence) | Human

  /** `auto_approve_threshold`: None is a missing row; an unreadable or non-finite value closes the rule. */
  function Threshold(row: Option<Option<Num>>): real {
    match row
    case None => AUTO_APPROVE_THRESHOLD
    case Some(Some(Finite(r))) => r
    case Some(_) => 0.0
  }

  /** `auto_approve_max`: None stands for a missing, null or unreadable value. It may be infinite or NaN. */
  function AutoMax(value: Option<Num>): Num {
    match value
    case None => Finite(AUTO_MAX_FALLBACK)
    case Some(n) => n
  }

  /** `amount <= max` on doubles. */
  predicate AtMost(amount: real, max: Num) {
    match max
    case Finite(r) => amount <= r
    case PosInf => true
    case NegInf => false
    case NotANumber => false
  }

  function AmountField(action: Action): string {
    if action == Disburse then "amount" else "amount_vnd"
  }

  /** `amount` is what `float(args.get(...))` gives, None when it raises. What float makes of a text is
      left open. */
  predicate AmountOf(action: Action, args: Args, amount: Option<Num>) {
    var f := AmountField(action);
    if f !in args then amount == None
    else match args[f]
      case Null => amount == None
      case Bool(b) => amount == Some(Finite(if b then 1.0 else 0.0))
      case Int(i) => amount == Some(Finite(i as real))
      case Float(x) => amount == Some(x)
      case Text(_) => true
  }

  /** `gated_decision`, with the latest verdict and the automatic maximum as it reads them. */
  function GatedDecision(action: Action, raw: Option<Num>, reading: Reading, threshold: real, autoMax: Num)
    : (Decision, Snapshot)
  {
    var verdict := reading.Verdict();
    var amount := if raw.Some? && raw.value.Finite? then Some(raw.value.r) else None;
    var lane := if verdict.Some? then Some(verdict.value.lane) else None;
    var id := if verdict.Some? then Some(verdict.value.id) else None;
    var policyThreshold := if threshold > 0.0 then threshold else AUTO_APPROVE_THRESHOLD;
    var tier1 := action == Disburse && amount.Some? && amount.value < policyThreshold && lane != Some(Red);
    var tier2 := action == Disburse && amount.Some? && lane == Some(Green) && !tier1 && AtMost(amount.value, autoMax);
    var recommendation :=
      if lane == Some(Red) then RejectRecommended
      else if tier1 || tier2 then AutoEligible
      else HumanReview;
    var snapshot := Snapshot(id, lane, recommendation);
    if action != Disburse || amount.None? || threshold <= 0.0 || lane == Some(Red) then (Human, snapshot)
    else if tier1 || tier2 then (Auto(Evidence(amount.value, threshold, reading, autoMax)), snapshot)
    else (Human, snapshot)
  }

  predicate HasLane(verdict: Option<Found>, lane: Lane) {
    verdict.Some? && verdict.value.lane == lane
  }

  /** What the automatic rule needs before it releases money. */
  predicate RuleAllows(ev: Evidence) {
    && ev.threshold > 0.0
    && !HasLane(ev.reading.Verdict(), Red)
    && (ev.amount < ev.threshold || (HasLane(ev.reading.Verdict(), Green) && AtMost(ev.amount, ev.autoMax)))
  }

  /** The rule in full: the threshold is open, what was found of the borrower is not red, and the amount is below
      the threshold, or the borrower is green and the amount is within a maximum that is a number or infinite. */
  predicate RuleFits(ev: Evidence) {
    var found := if ev.reading.OfOwner? then ev.reading.found else None;
    && ev.threshold > 0.0
    && (found.Some? ==> found.value.lane != Red)
    && (ev.amount >= ev.threshold ==>
          && found.Some? && found.value.lane == Green
          && (ev.autoMax.PosInf? || (ev.autoMax.Finite? && ev.amount <= ev.autoMax.r)))
  }

  /** The decision is automatic exactly for a plain disbursement of a finite amount that the rule allows;
      the evidence it carries is what it was given. */
  lemma AutoIff(action: Action, raw: Option<Num>, reading: Reading, threshold: real, autoMax: Num)
    ensures var (d, _) := GatedDecision(action, raw, reading, threshold, autoMax);
      && (d.Auto? <==> action == Disburse && raw.Some? && raw.value.Finite?
                       && RuleAllows(Evidence(raw.value.r, threshold, reading, autoMax)))
      && (d.Auto? ==> d.evidence == Evidence(raw.value.r, threshold, reading, autoMax))
      && (d.Auto? ==> RuleFits(d.evidence))
      && (action == Disburse && raw.Some? && raw.value.Finite? ==>
            (d.Auto? <==> RuleFits(Evidence(raw.value.r, threshold, reading, autoMax))))
  {
    if raw.Some? && raw.value.Finite? && HasLane(reading.Verdict(), Green) {
      assert !HasLane(reading.Verdict(), Red);
    }
  }

  /** The recommendation kept for the shadow ledger differs from the decision in one case only: the
      rule is switched off by a threshold of zero or less. */
  lemma RecommendationAgrees(action: Action, raw: Option<Num>, reading: Reading, threshold: real, autoMax: Num)
    ensures var (d, snap) := GatedDecision(action, raw, reading, threshold, autoMax); var verdict := reading.Verdict();
      && (d.Auto? <==> snap.recommendation == AutoEligible && threshold > 0.0)
      && (snap.recommendation == RejectRecommended <==> HasLane(verdict, Red))
      && snap.lane == (if verdict.Some? then Some(verdict.value.lane) else None)
  {
  }

  /** A smaller amount is never decided more strictly. */
  lemma AutoIsDownwardClosed(small: real, big: real, reading: Reading, threshold: real, autoMax: Num)
    requires small <= big
    requires GatedDecision(Disburse, Some(Finite(big)), reading, threshold, autoMax).0.Auto?
    ensures GatedDecision(Disburse, Some(Finite(small)), reading, threshold, autoMax).0.Auto?
  {
    AutoIff(Disburse, Some(Finite(big)), reading, threshold, autoMax);
    AutoIff(Disburse, Some(Finite(small)), reading, threshold, autoMax);
  }

  /** Without an assessment a plain disbursement is automatic exactly below the number in the settings row,
      which must be positive, or below 500 million where there is no row. */
  lemma SettingDecides(row: Option<Option<Num>>, amount: real, reading: Reading, autoMax: Num)
    requires reading.Verdict().None?
    ensures GatedDecision(Disburse, Some(Finite(amount)), reading, Threshold(row), autoMax).0.Auto? <==>
      match row
      case None => amount < 500_000_000.0
      case Some(Some(Finite(r))) => 0.0 < r && amount < r
      case Some(_) => false
  {
  }

  /** A configured value that cannot be read, is not finite or is not positive closes the automatic rule for
      every call. */
  lemma BadThresholdClosesRule(row: Option<Option<Num>>, action: Action, raw: Option<Num>, reading: Reading,
                               autoMax: Num)
    requires row.Some? && forall r :: row.value == Some(Finite(r)) ==> r <= 0.0
    ensures GatedDecision(action, raw, reading, Threshold(row), autoMax).0 == Human
  {
  }
}
