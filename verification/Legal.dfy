/**
 The profile classification of roles/legal/functions.py: police, employment, document and purpose checks,
 the credit verdict, the lane and the decision, written to the assessments ledger.
 */
module Legal {
  import opened Wrappers
  import opened Lanes
  import Credit
  import GateMachine
  import Normalization

  datatype Identity = Identity(idNumber: string, name: string, address: string)

  datatype PoliceRecord = PoliceRecord(identity: Identity, status: string, kind: string, year: int)

  datatype EmploymentRecord = EmploymentRecord(verifiedIncome: real, expired: bool)

  datatype Requirement = Requirement(code: string, mandatory: bool)

  datatype CollateralLegal = CollateralLegal(disputed: bool, planningZone: bool)

  /** What the checks read; absent texts are empty and an absent year is zero. */
  datatype Tables = Tables(
    credit: Credit.Tables,
    bank: map<string, Identity>,
    police: map<string, PoliceRecord>,
    employment: map<string, EmploymentRecord>,
    consumerDocs: seq<Requirement>,
    securedDocs: seq<Requirement>,
    validDocs: set<(string, string)>,
    collateralLegal: map<string, CollateralLegal>,
    banned: map<string, bool>)

  datatype Policy = Policy(
    credit: Credit.Policy, autoMax: real, cicBlock: int, blockedTypes: set<string>, expiryYears: int,
    mismatchMax: real, thisYear: int)

  // ------------------------------------------------------------ the policy in the assumptions table

  /** `_assumption_str`: the text of the row with that key, empty without one; a null reads "None". */
  function TextOf(rows: seq<Credit.Setting>, key: string): string {
    if rows == [] then ""
    else if rows[0].key == key then (if rows[0].text.Some? then rows[0].text.value else "None")
    else TextOf(rows[1..], key)
  }

  /** The pieces between the commas. */
  function Pieces(s: string): (pieces: seq<string>)
    ensures pieces != []
  {
    if s == "" then [""]
    else
      var rest := Pieces(s[1..]);
      if s[0] == ',' then [""] + rest else [[s[0]] + rest[0]] + rest[1..]
  }

  function Joined(pieces: seq<string>): string
    requires pieces != []
  {
    if |pieces| == 1 then pieces[0] else pieces[0] + "," + Joined(pieces[1..])
  }

  /** Cutting at the commas loses nothing: joining the pieces gives the text back. */
  lemma {:induction false} PiecesJoin(s: string)
    ensures Joined(Pieces(s)) == s
  {
    if s != "" {
      PiecesJoin(s[1..]);
      var rest := Pieces(s[1..]);
      if s[0] == ',' {
        assert ([""] + rest)[1..] == rest;
        assert s == "," + s[1..];
      } else {
        JoinedHead(s[0], rest);
        assert s == [s[0]] + s[1..];
      }
    }
  }

  lemma JoinedHead(c: char, rest: seq<string>)
    requires rest != []
    ensures Joined([[c] + rest[0]] + rest[1..]) == [c] + Joined(rest)
  {
    var more := [[c] + rest[0]] + rest[1..];
    assert more[1..] == rest[1..];
    if |rest| > 1 {
      var tail := Joined(rest[1..]);
      assert ([c] + rest[0]) + "," + tail == [c] + (rest[0] + "," + tail);
    }
  }

  /** ... and it cuts at every comma. */
  lemma {:induction false} PiecesHaveNoComma(s: string, i: nat)
    requires i < |Pieces(s)|
    ensures ',' !in Pieces(s)[i]
  {
    if s != "" {
      var rest := Pieces(s[1..]);
      if s[0] == ',' {
        if i > 0 {
          PiecesHaveNoComma(s[1..], i - 1);
        }
      } else {
        PiecesHaveNoComma(s[1..], i);
      }
    }
  }

  function BlockedTypes(text: string): set<string> {
    set p | p in Pieces(text) && p != ""
  }

  function PolicyOf(rows: seq<Credit.Setting>, thisYear: int): Policy {
    var a := Credit.NumbersOf(rows);
    Policy(Credit.PolicyOf(a), Credit.GetOr(a, "auto_approve_max_vnd", 2000000000.0),
           Credit.Truncated(Credit.GetOr(a, "cic_block_min_group", 3.0)),
           BlockedTypes(TextOf(rows, "blocked_record_types")),
           Credit.Truncated(Credit.GetOr(a, "criminal_record_expiry_years", 7.0)),
           Credit.GetOr(a, "income_mismatch_max_pct", 10.0), thisYear)
  }

  /** Row `i` is the first with the key. */
  predicate FirstRow(rows: seq<Credit.Setting>, key: string, i: nat) {
    i < |rows| && rows[i].key == key && forall j :: 0 <= j < i ==> rows[j].key != key
  }

  lemma {:induction false} TextIsFirst(rows: seq<Credit.Setting>, key: string)
    ensures (forall j :: 0 <= j < |rows| ==> rows[j].key != key) ==> TextOf(rows, key) == ""
    ensures forall i: nat :: FirstRow(rows, key, i) ==>
      TextOf(rows, key) == if rows[i].text == None then "None" else rows[i].text.value
  {
    if rows != [] && rows[0].key != key {
      TextIsFirst(rows[1..], key);
      forall i: nat | FirstRow(rows, key, i)
        ensures TextOf(rows, key) == if rows[i].text == None then "None" else rows[i].text.value
      {
        assert FirstRow(rows[1..], key, i - 1);
      }
    }
  }

  /** Every part of the policy is read from its own row, or has its default. */
  ghost predicate PolicyReads(rows: seq<Credit.Setting>, p: Policy) {
    && Credit.PolicyReads(rows, p.credit)
    && Credit.Configured(rows, "auto_approve_max_vnd", 2_000_000_000.0, p.autoMax)
    && Credit.Configured(rows, "income_mismatch_max_pct", 10.0, p.mismatchMax)
    && (exists v :: Credit.Configured(rows, "cic_block_min_group", 3.0, v) && Credit.WholePart(p.cicBlock, v))
    && (exists v :: Credit.Configured(rows, "criminal_record_expiry_years", 7.0, v) && Credit.WholePart(p.expiryYears, v))
    && (forall kind :: kind in p.blockedTypes <==> kind != "" && kind in Pieces(TextOf(rows, "blocked_record_types")))
  }

  lemma PolicyIsRead(rows: seq<Credit.Setting>, thisYear: int)
    ensures PolicyReads(rows, PolicyOf(rows, thisYear)) && PolicyOf(rows, thisYear).thisYear == thisYear
  {
    Credit.PolicyIsRead(rows);
    Credit.GetIsConfigured(rows, "auto_approve_max_vnd", 2_000_000_000.0);
    Credit.GetIsConfigured(rows, "income_mismatch_max_pct", 10.0);
    Credit.GetIsConfigured(rows, "cic_block_min_group", 3.0);
    Credit.GetIsConfigured(rows, "criminal_record_expiry_years", 7.0);
    hide Credit.Configured, Credit.NumbersOf, Credit.GetOr, Credit.Truncated, Credit.PolicyReads, Pieces, TextOf;
    var a := Credit.NumbersOf(rows);
    Credit.TruncatedIsWholePart(Credit.GetOr(a, "cic_block_min_group", 3.0));
    Credit.TruncatedIsWholePart(Credit.GetOr(a, "criminal_record_expiry_years", 7.0));
    hide Credit.WholePart;
  }

  datatype Request = Request(
    owner: string, amount: real, loanType: Option<string>, collateral: Option<string>, purpose: Option<string>)
  {
    function ForCredit(): Credit.Request {
      Credit.Request(owner, amount, collateral, loanType, None, None)
    }
  }

  datatype Decision = RejectRecommended | HumanReviewRequired | HumanApprovalRequired | AutoApproveEligible

  predicate KnownOwner(t: Tables, owner: string) {
    owner in t.credit.customers || owner in t.credit.businesses
  }

  function KindOf(t: Tables, owner: string): OwnerKind {
    if owner in t.credit.customers then Customer else Business
  }

  function BankIdentity(t: Tables, owner: string): Identity {
    if owner in t.bank then t.bank[owner] else Identity("", "", "")
  }

  /** Declared monthly income. */
  function Declared(t: Tables, owner: string): real
    requires KnownOwner(t, owner)
  {
    if owner in t.credit.customers then t.credit.customers[owner] else t.credit.businesses[owner] / 12.0
  }

  // ------------------------------------------------------------ police

  datatype PoliceFlag = IdentityMismatch | UnderInvestigation | CriminalBlocked | CriminalExpired | CriminalRecent

  /** `legal_check_police` on a record. */
  method CheckPolice(p: Policy, bank: Identity, rec: PoliceRecord) returns (matches: bool, flags: seq<PoliceFlag>)
    ensures matches == (bank == rec.identity)
    ensures IdentityMismatch in flags <==> !matches
    ensures UnderInvestigation in flags <==> rec.status == "under_investigation"
    ensures CriminalBlocked in flags <==> rec.status == "criminal_record" && rec.kind in p.blockedTypes
    ensures CriminalExpired in flags <==>
      rec.status == "criminal_record" && rec.kind !in p.blockedTypes && rec.year != 0
      && p.thisYear - rec.year >= p.expiryYears
    ensures CriminalRecent in flags <==>
      rec.status == "criminal_record" && CriminalBlocked !in flags && CriminalExpired !in flags
  {
    var mismatches: seq<string> := [];
    if bank.idNumber != rec.identity.idNumber {
      mismatches := mismatches + ["id_number"];
    }
    if bank.name != rec.identity.name {
      mismatches := mismatches + ["full_name"];
    }
    if bank.address != rec.identity.address {
      mismatches := mismatches + ["address"];
    }
    matches := mismatches == [];
    flags := [];
    if !matches {
      flags := flags + [IdentityMismatch];
    }
    if rec.status == "under_investigation" {
      flags := flags + [UnderInvestigation];
    } else if rec.status == "criminal_record" {
      if rec.kind in p.blockedTypes {
        flags := flags + [CriminalBlocked];
      } else {
        var age := p.thisYear - rec.year;
        if rec.year != 0 && age >= p.expiryYears {
          flags := flags + [CriminalExpired];
        } else {
          flags := flags + [CriminalRecent];
        }
      }
    }
  }

  function IdentityLevel(t: Tables, owner: string): Level {
    if owner in t.police && t.police[owner].identity == BankIdentity(t, owner) then Pass else Caution
  }

  function CriminalLevel(t: Tables, p: Policy, owner: string): Level {
    if owner !in t.police then Caution
    else
      var rec := t.police[owner];
      if rec.status == "clean" then Pass
      else if rec.status == "under_investigation"
              || (rec.status == "criminal_record" && rec.kind in p.blockedTypes) then Block
      else Caution
  }

  // ------------------------------------------------------------ employment

  datatype EmploymentFlag = EmploymentExpired | IncomeMismatch

  /** How far the declared income is off, in percent; None without a verified income. */
  function MismatchPct(declared: real, verified: real): Option<real> {
    if verified > 0.0 then Some(Credit.Round((declared - verified) / verified * 100.0, 10.0)) else None
  }

  function Absolute(x: real): real {
    if x < 0.0 then -x else x
  }

  predicate IncomeIsOff(p: Policy, declared: real, verified: real) {
    var pct := MismatchPct(declared, verified);
    pct.Some? && Absolute(pct.value) > p.mismatchMax
  }

  /** The mismatch flag goes by the gap in percent of the verified income, up to the rounding of the percentage
      to one place: beyond the maximum by a twentieth of a percent it is always raised, below by as much
      never, and without a verified income never. */
  lemma MismatchBounds(p: Policy, declared: real, verified: real)
    ensures verified <= 0.0 ==> !IncomeIsOff(p, declared, verified)
    ensures verified > 0.0 ==>
      var gap := if declared > verified then declared - verified else verified - declared;
      && (gap * 100.0 > (p.mismatchMax + 0.05) * verified ==> IncomeIsOff(p, declared, verified))
      && (gap * 100.0 < (p.mismatchMax - 0.05) * verified ==> !IncomeIsOff(p, declared, verified))
  {
    if verified > 0.0 {
      var x := (declared - verified) / verified * 100.0;
      var n := Credit.RoundIsNearest(x, 10.0);
      var r := Credit.Round(x, 10.0);
      assert IncomeIsOff(p, declared, verified) <==> Absolute(r) > p.mismatchMax;
      GapIs(declared, verified);
      hide Credit.Round, IncomeIsOff;
      assert r * 10.0 == n as real && -0.05 <= r - x <= 0.05;
      var gap := if declared > verified then declared - verified else verified - declared;
      BoundsHold(Absolute(x), Absolute(r), p.mismatchMax, gap * 100.0, verified);
    }
  }

  lemma GapIs(declared: real, verified: real)
    requires verified > 0.0
    ensures var gap := if declared > verified then declared - verified else verified - declared;
      Absolute((declared - verified) / verified * 100.0) * verified == gap * 100.0
  {
    var z := (declared - verified) / verified;
    assert z * verified == declared - verified;
    assert (z * 100.0) * verified == (declared - verified) * 100.0;
    assert (-(z * 100.0)) * verified == -((z * 100.0) * verified);
    if z * 100.0 < 0.0 {
      assert z < 0.0 && z * verified < 0.0;
    } else {
      assert z * verified >= 0.0;
    }
  }

  lemma BoundsHold(x: real, r: real, m: real, g: real, v: real)
    requires v > 0.0 && x * v == g && -0.05 <= r - x <= 0.05
    ensures g > (m + 0.05) * v ==> r > m
    ensures g < (m - 0.05) * v ==> !(r > m)
  {
    var a, b := x - (m + 0.05), (m - 0.05) - x;
    assert a * v == g - (m + 0.05) * v && b * v == (m - 0.05) * v - g;
    Credit.SignOfQuotient(a, v, g - (m + 0.05) * v);
    Credit.SignOfQuotient(b, v, (m - 0.05) * v - g);
  }

  /** `legal_verify_employment` on a record. */
  method VerifyEmployment(p: Policy, declared: real, rec: EmploymentRecord) returns (flags: seq<EmploymentFlag>)
    ensures EmploymentExpired in flags <==> rec.expired
    ensures IncomeMismatch in flags <==> IncomeIsOff(p, declared, rec.verifiedIncome)
  {
    var pct := MismatchPct(declared, rec.verifiedIncome);
    var within := pct.Some? && Absolute(pct.value) <= p.mismatchMax;
    flags := [];
    if rec.expired {
      flags := flags + [EmploymentExpired];
    }
    if pct.Some? && !within {
      flags := flags + [IncomeMismatch];
    }
  }

  /** A business is never verified; a record without a verified income raises no mismatch. */
  function EmploymentLevel(t: Tables, p: Policy, owner: string): Level
    requires KnownOwner(t, owner)
  {
    if KindOf(t, owner) == Business || owner !in t.employment then Caution
    else
      var rec := t.employment[owner];
      if rec.expired || IncomeIsOff(p, Declared(t, owner), rec.verifiedIncome) then Caution else Pass
  }

  // ------------------------------------------------------------ documents, purpose, credit history

  datatype DocsResult = NoSuchCollateral | ForeignCollateral | Docs(level: Level)

  /** A mandatory document of the owner is not valid. */
  predicate LacksMandatory(t: Tables, owner: string, reqs: seq<Requirement>) {
    exists i :: 0 <= i < |reqs| && reqs[i].mandatory && (owner, reqs[i].code) !in t.validDocs
  }

  predicate Mentions(s: string, word: string) {
    word <= s || (s != "" && Mentions(s[1..], word))
  }

  /** `legal_check_docs`: disputed collateral blocks, and so do papers whose state says disputed; missing
      mandatory papers, incomplete collateral papers and planning zones need documents. */
  function CheckDocs(t: Tables, q: Request): DocsResult {
    var reqs := if Credit.IsSecured(q.ForCredit()) then t.securedDocs else t.consumerDocs;
    var lacks := LacksMandatory(t, q.owner, reqs);
    if !Credit.Names(q.collateral) then Docs(if lacks then Caution else Pass)
    else
      var id := q.collateral.value;
      if id !in t.credit.collaterals then NoSuchCollateral
      else if t.credit.collaterals[id].owner != q.owner then ForeignCollateral
      else
        var legal := if id in t.collateralLegal then t.collateralLegal[id] else CollateralLegal(false, false);
        var c := t.credit.collaterals[id];
        Docs(if legal.disputed || (!c.Complete() && Mentions(c.papers, "disputed")) then Block
             else if lacks || !c.Complete() || legal.planningZone then Caution
             else Pass)
  }

  /** `legal_check_compliance`: a purpose that is blank gives no criterion. */
  function PurposeLevel(t: Tables, purpose: string): Option<Level> {
    var code := Normalization.Strip(purpose);
    if code == "" then None
    else if code !in t.banned then Some(Pass)
    else Some(if t.banned[code] then Block else Caution)
  }

  function CicLevel(t: Tables, p: Policy, owner: string): Level {
    if owner !in t.credit.cic then Caution
    else if t.credit.cic[owner] >= p.cicBlock then Block
    else if t.credit.cic[owner] == 2 then Caution
    else Pass
  }

  function VerdictLevel(v: Credit.Verdict): Level {
    match v
    case Eligible => Pass
    case NeedsInfo => Caution
    case Ineligible => Block
    case InfoOnly => Caution
  }

  function CreditLevel(t: Tables, p: Policy, q: Request): Level
    requires p.credit.Sane()
  {
    if Credit.Refusal(t.credit, q.ForCredit()).Some? then Caution
    else VerdictLevel(Credit.VerdictOf(p.credit, Credit.FactsOf(t.credit, p.credit, q.ForCredit())))
  }

  // ------------------------------------------------------------ the criteria of a profile

  function DocsCriterion(t: Tables, q: Request): Criterion {
    match CheckDocs(t, q)
    case ForeignCollateral => Criterion("collateral_ownership", Block)
    case NoSuchCollateral => Criterion("docs", Caution)
    case Docs(level) => Criterion("docs", level)
  }

  function PurposeCriteria(t: Tables, q: Request): seq<Criterion> {
    if Credit.Names(q.purpose) && PurposeLevel(t, q.purpose.value).Some?
    then [Criterion("purpose", PurposeLevel(t, q.purpose.value).value)] else []
  }

  /** Collateral of somebody else is reported once, by the documents check. */
  function CreditCriteria(t: Tables, p: Policy, q: Request): seq<Criterion>
    requires p.credit.Sane()
  {
    if Credit.Refusal(t.credit, q.ForCredit()) == Some(Credit.OwnerMismatch) then []
    else [Criterion("credit", CreditLevel(t, p, q))]
  }

  function Criteria(t: Tables, p: Policy, q: Request): seq<Criterion>
    requires p.credit.Sane() && KnownOwner(t, q.owner)
  {
    [Criterion("identity", IdentityLevel(t, q.owner)), Criterion("criminal", CriminalLevel(t, p, q.owner)),
     Criterion("cic", CicLevel(t, p, q.owner)), Criterion("employment", EmploymentLevel(t, p, q.owner)),
     DocsCriterion(t, q)]
    + PurposeCriteria(t, q) + CreditCriteria(t, p, q)
  }

  function DecisionOf(lane: Lane, amount: real, autoMax: real): Decision {
    match lane
    case Red => RejectRecommended
    case Yellow => HumanReviewRequired
    case Green => if amount <= autoMax then AutoApproveEligible else HumanApprovalRequired
  }

  datatype Error = InvalidParam | BadEnum | UnknownOwner

  function Refusal(t: Tables, q: Request): Option<Error> {
    if q.amount <= 0.0 then Some(InvalidParam)
    else if q.loanType.Some? && q.loanType.value != "consumer" && q.loanType.value != "secured" then Some(BadEnum)
    else if !KnownOwner(t, q.owner) then Some(UnknownOwner)
    else None
  }

  datatype Outcome = Refused(error: Error) | Classified(id: nat, decision: Decision)

  class Ledger {
    var assessments: seq<Assessment>

    constructor ()
      ensures assessments == []
    {
      assessments := [];
    }

    /** `legal_classify_profile`. */
    method Classify(t: Tables, thisYear: int, q: Request) returns (o: Outcome)
      requires PolicyOf(t.credit.settings, thisYear).credit.Sane()
      modifies this
      ensures Refusal(t, q).Some? ==> o == Refused(Refusal(t, q).value) && assessments == old(assessments)
      ensures Refusal(t, q).None? ==>
        var p := PolicyOf(t.credit.settings, thisYear);
        var criteria := Criteria(t, p, q);
        && assessments == old(assessments)
             + [Assessment(q.owner, KindOf(t, q.owner), q.amount, LaneOf(criteria), criteria)]
        && o == Classified(|old(assessments)|, DecisionOf(LaneOf(criteria), q.amount, p.autoMax))
      ensures Refusal(t, q).None? ==>
        var p := PolicyOf(t.credit.settings, thisYear);
        && o.Classified? && PolicyReads(t.credit.settings, p)
        && exists autoMax ::
             && Credit.Configured(t.credit.settings, "auto_approve_max_vnd", 2_000_000_000.0, autoMax)
             && DecisionFits(o.decision, t, p, q, autoMax)
    {
      if q.amount <= 0.0 {
        return Refused(InvalidParam);
      }
      if q.loanType.Some? && q.loanType.value != "consumer" && q.loanType.value != "secured" {
        return Refused(BadEnum);
      }
      if !KnownOwner(t, q.owner) {
        return Refused(UnknownOwner);
      }
      var p := PolicyOf(t.credit.settings, thisYear);
      PolicyIsRead(t.credit.settings, thisYear);
      DecisionIff(t, p, q);
      hide PolicyOf, Criteria, LaneOf, DecisionFits, DecisionOf, Credit.Configured, Refusal;
      var criteria := ProfileCriteria(t, p, q);
      var lane := LaneOf(criteria);
      assessments := assessments + [Assessment(q.owner, KindOf(t, q.owner), q.amount, lane, criteria)];
      return Classified(|assessments| - 1, DecisionOf(lane, q.amount, p.autoMax));
    }
  }

  /** The criteria in the order in which they are checked. */
  method ProfileCriteria(t: Tables, p: Policy, q: Request) returns (criteria: seq<Criterion>)
    requires p.credit == Credit.PolicyOf(Credit.NumbersOf(t.credit.settings)) && p.credit.Sane()
    requires KnownOwner(t, q.owner)
    ensures criteria == Criteria(t, p, q)
  {
    hide Credit.PolicyOf;
    criteria := PoliceCriteria(t, p, q.owner);
    criteria := criteria + [Criterion("cic", CicLevel(t, p, q.owner))];
    var employment := EmploymentCriterion(t, p, q.owner);
    criteria := criteria + [employment];
    hide DocsCriterion, PurposeCriteria;
    var paper := PaperCriteria(t, q);
    criteria := criteria + paper;
    var credit := Credit.CreditAssess(t.credit, q.ForCredit());
    DocsIsClean(t, q);
    assert criteria[4] == DocsCriterion(t, q);
    if credit == Credit.Refused(Credit.OwnerMismatch) {
      if !(exists i :: 0 <= i < |criteria| && criteria[i].key == "collateral_ownership") {
        criteria := criteria + [Criterion("collateral_ownership", Block)];
      }
    } else if credit.Refused? {
      criteria := criteria + [Criterion("credit", Caution)];
    } else {
      criteria := criteria + [Criterion("credit", VerdictLevel(credit.j.verdict))];
    }
  }

  method PaperCriteria(t: Tables, q: Request) returns (criteria: seq<Criterion>)
    ensures criteria == [DocsCriterion(t, q)] + PurposeCriteria(t, q)
  {
    var docs := CheckDocs(t, q);
    if docs.ForeignCollateral? {
      criteria := [Criterion("collateral_ownership", Block)];
    } else if docs.NoSuchCollateral? {
      criteria := [Criterion("docs", Caution)];
    } else {
      criteria := [Criterion("docs", docs.level)];
    }
    hide CheckDocs;
    if Credit.Names(q.purpose) {
      var level := PurposeLevel(t, q.purpose.value);
      if level.Some? {
        criteria := criteria + [Criterion("purpose", level.value)];
      }
    }
  }

  method PoliceCriteria(t: Tables, p: Policy, owner: string) returns (criteria: seq<Criterion>)
    ensures criteria
         == [Criterion("identity", IdentityLevel(t, owner)), Criterion("criminal", CriminalLevel(t, p, owner))]
  {
    if owner !in t.police {
      return [Criterion("identity", Caution), Criterion("criminal", Caution)];
    }
    var rec := t.police[owner];
    var matches, flags := CheckPolice(p, BankIdentity(t, owner), rec);
    criteria := [Criterion("identity", if matches then Pass else Caution)];
    if rec.status == "clean" {
      criteria := criteria + [Criterion("criminal", Pass)];
    } else if CriminalBlocked in flags || UnderInvestigation in flags {
      criteria := criteria + [Criterion("criminal", Block)];
    } else {
      criteria := criteria + [Criterion("criminal", Caution)];
    }
  }

  method EmploymentCriterion(t: Tables, p: Policy, owner: string) returns (c: Criterion)
    requires KnownOwner(t, owner)
    ensures c == Criterion("employment", EmploymentLevel(t, p, owner))
  {
    if KindOf(t, owner) == Business || owner !in t.employment {
      return Criterion("employment", Caution);
    }
    var flags := VerifyEmployment(p, Declared(t, owner), t.employment[owner]);
    if flags != [] {
      var first := flags[0];
      assert first in flags && (first == EmploymentExpired || first == IncomeMismatch);
      return Criterion("employment", Caution);
    }
    assert EmploymentExpired !in flags && IncomeMismatch !in flags;
    return Criterion("employment", Pass);
  }

  // ------------------------------------------------------------ what a lane says

  predicate StandsAt(s: string, i: nat, word: string) {
    i + |word| <= |s| && s[i..i + |word|] == word
  }

  /** Every mandatory paper of the kind of loan is valid, and a collateral that is named exists, is the
      owner's, has complete papers and is neither disputed nor in a planning zone. */
  predicate PapersClean(t: Tables, q: Request) {
    && (forall r :: r in (if Credit.AsksSecured(q.ForCredit()) then t.securedDocs else t.consumerDocs) && r.mandatory ==>
          (q.owner, r.code) in t.validDocs)
    && (q.collateral.Some? && q.collateral.value != "" ==>
          var id := q.collateral.value;
          && id in t.credit.collaterals && t.credit.collaterals[id].owner == q.owner
          && t.credit.collaterals[id].papers == "complete"
          && (id in t.collateralLegal ==> t.collateralLegal[id] == CollateralLegal(false, false)))
  }

  /** The collateral that is named belongs to somebody else, or is disputed by the legal record or by the state
      of its papers. */
  predicate CollateralBlocks(t: Tables, q: Request) {
    && q.collateral.Some? && q.collateral.value != ""
    && var id := q.collateral.value;
       && id in t.credit.collaterals
       && var papers := t.credit.collaterals[id].papers;
          || t.credit.collaterals[id].owner != q.owner
          || (id in t.collateralLegal && t.collateralLegal[id].disputed)
          || (papers != "complete" && exists i :: 0 <= i <= |papers| && StandsAt(papers, i, "disputed"))
  }

  lemma PrefixStands(s: string, word: string)
    ensures StandsAt(s, 0, word) <==> word <= s
  {
    if StandsAt(s, 0, word) {
      assert s[..|word|] == word;
    }
  }

  lemma {:induction false} MentionsIff(s: string, word: string)
    ensures Mentions(s, word) <==> exists i :: 0 <= i <= |s| && StandsAt(s, i, word)
  {
    if word <= s {
      PrefixStands(s, word);
    } else if s != "" {
      MentionsIff(s[1..], word);
      if i :| 0 <= i <= |s| && StandsAt(s, i, word) {
        PrefixStands(s, word);
        assert i > 0;
        assert s[1..][i - 1..i - 1 + |word|] == s[i..i + |word|];
        assert StandsAt(s[1..], i - 1, word);
      }
      if i :| 0 <= i <= |s[1..]| && StandsAt(s[1..], i, word) {
        assert s[1..][i..i + |word|] == s[i + 1..i + 1 + |word|];
        assert StandsAt(s, i + 1, word);
      }
    }
  }

  lemma LacksIff(t: Tables, owner: string, reqs: seq<Requirement>)
    ensures LacksMandatory(t, owner, reqs) <==>
      !(forall r :: r in reqs && r.mandatory ==> (owner, r.code) in t.validDocs)
  {
  }

  /** The documents check passes exactly on clean papers and blocks exactly on a blocking collateral. */
  lemma DocsIff(t: Tables, q: Request)
    ensures CheckDocs(t, q) == Docs(Pass) <==> PapersClean(t, q)
    ensures CheckDocs(t, q) == Docs(Block) || CheckDocs(t, q) == ForeignCollateral <==> CollateralBlocks(t, q)
  {
    LacksIff(t, q.owner, if Credit.AsksSecured(q.ForCredit()) then t.securedDocs else t.consumerDocs);
    hide LacksMandatory;
    if Credit.Names(q.collateral) && q.collateral.value in t.credit.collaterals {
      MentionsIff(t.credit.collaterals[q.collateral.value].papers, "disputed");
    }
    hide Mentions;
  }

  /** Every check came out clean. */
  predicate AllClean(t: Tables, p: Policy, q: Request)
    requires p.credit.Sane() && KnownOwner(t, q.owner)
  {
    // an individual whose police record matches what the bank holds and is clean
    && q.owner in t.credit.customers
    && q.owner in t.police && t.police[q.owner].identity == BankIdentity(t, q.owner) && t.police[q.owner].status == "clean"
    // a credit history that is neither bad nor being watched
    && q.owner in t.credit.cic && t.credit.cic[q.owner] < p.cicBlock && t.credit.cic[q.owner] != 2
    // a verified, current employment whose income is what was declared
    && q.owner in t.employment && !t.employment[q.owner].expired
    && !IncomeIsOff(p, t.credit.customers[q.owner], t.employment[q.owner].verifiedIncome)
    // papers complete, own undisputed collateral, an unrestricted purpose and an eligible credit verdict
    && PapersClean(t, q)
    && (Credit.Names(q.purpose) ==>
          Normalization.Strip(q.purpose.value) !in t.banned || Normalization.Strip(q.purpose.value) == "")
    && Credit.Refusal(t.credit, q.ForCredit()).None?
    && Credit.VerdictOf(p.credit, Credit.FactsOf(t.credit, p.credit, q.ForCredit())) == Credit.Eligible
  }

  /** What alone turns a profile red. */
  predicate SomethingBlocks(t: Tables, p: Policy, q: Request)
    requires p.credit.Sane() && KnownOwner(t, q.owner)
  {
    // a police record under investigation, or of a blocked kind
    || (q.owner in t.police && (t.police[q.owner].status == "under_investigation"
          || (t.police[q.owner].status == "criminal_record" && t.police[q.owner].kind in p.blockedTypes)))
    // bad debt
    || (q.owner in t.credit.cic && t.credit.cic[q.owner] >= p.cicBlock)
    // collateral that belongs to somebody else or is disputed
    || CollateralBlocks(t, q)
    // a banned purpose
    || (Credit.Names(q.purpose) && Normalization.Strip(q.purpose.value) != ""
        && Normalization.Strip(q.purpose.value) in t.banned && t.banned[Normalization.Strip(q.purpose.value)])
    // an ineligible credit verdict
    || (Credit.Refusal(t.credit, q.ForCredit()).None?
        && Credit.VerdictOf(p.credit, Credit.FactsOf(t.credit, p.credit, q.ForCredit())) == Credit.Ineligible)
  }

  lemma AnyAtConcat(a: seq<Criterion>, b: seq<Criterion>, level: Level)
    ensures AnyAt(a + b, level) <==> AnyAt(a, level) || AnyAt(b, level)
  {
    if i :| 0 <= i < |a| && a[i].level == level {
      assert (a + b)[i] == a[i];
    }
    if i :| 0 <= i < |b| && b[i].level == level {
      assert (a + b)[|a| + i] == b[i];
    }
  }

  lemma AnyAtFive(a: Criterion, b: Criterion, c: Criterion, d: Criterion, e: Criterion, level: Level)
    ensures AnyAt([a, b, c, d, e], level) <==>
      a.level == level || b.level == level || c.level == level || d.level == level || e.level == level
  {
    var s := [a, b, c, d, e];
    assert s[0] == a && s[1] == b && s[2] == c && s[3] == d && s[4] == e;
  }

  /** A level occurs in a profile exactly when some check came out at it. */
  lemma LevelOccurs(t: Tables, p: Policy, q: Request, level: Level)
    requires p.credit.Sane() && KnownOwner(t, q.owner)
    ensures AnyAt(Criteria(t, p, q), level) <==>
      || IdentityLevel(t, q.owner) == level || CriminalLevel(t, p, q.owner) == level || CicLevel(t, p, q.owner) == level
      || EmploymentLevel(t, p, q.owner) == level || DocsCriterion(t, q).level == level
      || AnyAt(PurposeCriteria(t, q), level) || AnyAt(CreditCriteria(t, p, q), level)
  {
    hide IdentityLevel, CriminalLevel, CicLevel, EmploymentLevel, DocsCriterion, PurposeCriteria, CreditCriteria, AnyAt;
    var five := [Criterion("identity", IdentityLevel(t, q.owner)), Criterion("criminal", CriminalLevel(t, p, q.owner)),
                 Criterion("cic", CicLevel(t, p, q.owner)), Criterion("employment", EmploymentLevel(t, p, q.owner)),
                 DocsCriterion(t, q)];
    AnyAtFive(five[0], five[1], five[2], five[3], five[4], level);
    AnyAtConcat(five, PurposeCriteria(t, q), level);
    AnyAtConcat(five + PurposeCriteria(t, q), CreditCriteria(t, p, q), level);
  }

  lemma PurposeOccurs(t: Tables, q: Request, level: Level)
    ensures AnyAt(PurposeCriteria(t, q), level) <==>
      Credit.Names(q.purpose) && PurposeLevel(t, q.purpose.value) == Some(level)
  {
    hide PurposeLevel;
    if PurposeCriteria(t, q) != [] {
      assert PurposeCriteria(t, q)[0].level == PurposeLevel(t, q.purpose.value).value;
    }
  }

  lemma CreditOccurs(t: Tables, p: Policy, q: Request, level: Level)
    requires p.credit.Sane()
    ensures AnyAt(CreditCriteria(t, p, q), level) <==>
      Credit.Refusal(t.credit, q.ForCredit()) != Some(Credit.OwnerMismatch) && CreditLevel(t, p, q) == level
  {
    hide CreditLevel, Credit.Refusal;
    if CreditCriteria(t, p, q) != [] {
      assert CreditCriteria(t, p, q)[0].level == CreditLevel(t, p, q);
    }
  }

  lemma LaneParts(t: Tables, p: Policy, q: Request, level: Level)
    requires p.credit.Sane() && KnownOwner(t, q.owner)
    ensures AnyAt(Criteria(t, p, q), level) <==>
      || IdentityLevel(t, q.owner) == level || CriminalLevel(t, p, q.owner) == level || CicLevel(t, p, q.owner) == level
      || EmploymentLevel(t, p, q.owner) == level || DocsCriterion(t, q).level == level
      || (Credit.Names(q.purpose) && PurposeLevel(t, q.purpose.value) == Some(level))
      || (Credit.Refusal(t.credit, q.ForCredit()) != Some(Credit.OwnerMismatch) && CreditLevel(t, p, q) == level)
  {
    hide *;
    LevelOccurs(t, p, q, level);
    PurposeOccurs(t, q, level);
    CreditOccurs(t, p, q, level);
  }

  /** The lane is green exactly when every check is clean. */
  lemma GreenIff(t: Tables, p: Policy, q: Request)
    requires p.credit.Sane() && Refusal(t, q).None?
    ensures LaneOf(Criteria(t, p, q)) == Green <==> AllClean(t, p, q)
  {
    hide Criteria, Credit.Refusal, Credit.VerdictOf, Credit.FactsOf, CheckDocs, PapersClean, CollateralBlocks, IncomeIsOff,
         Normalization.Strip, AnyAt;
    LaneParts(t, p, q, Block);
    LaneParts(t, p, q, Caution);
    DocsIsClean(t, q);
    DocsIff(t, q);
  }

  /** The lane is red exactly when one of the blocking findings is there. */
  lemma RedIff(t: Tables, p: Policy, q: Request)
    requires p.credit.Sane() && Refusal(t, q).None?
    ensures LaneOf(Criteria(t, p, q)) == Red <==> SomethingBlocks(t, p, q)
  {
    hide Criteria, Credit.Refusal, Credit.VerdictOf, Credit.FactsOf, CheckDocs, PapersClean, CollateralBlocks, IncomeIsOff,
         Normalization.Strip, AnyAt;
    LaneParts(t, p, q, Block);
    DocsIsClean(t, q);
    DocsIff(t, q);
  }

  /** What the answer of a classification means. */
  ghost predicate DecisionFits(d: Decision, t: Tables, p: Policy, q: Request, autoMax: real)
    requires p.credit.Sane() && KnownOwner(t, q.owner)
  {
    && (d == AutoApproveEligible <==> AllClean(t, p, q) && q.amount <= autoMax)
    && (d == HumanApprovalRequired <==> AllClean(t, p, q) && q.amount > autoMax)
    && (d == RejectRecommended <==> SomethingBlocks(t, p, q))
    && (d == HumanReviewRequired <==> !AllClean(t, p, q) && !SomethingBlocks(t, p, q))
  }

  /** A clean profile is decided by the maximum, a blocking finding asks for a rejection, and anything else
      goes to a person. */
  lemma DecisionIff(t: Tables, p: Policy, q: Request)
    requires p.credit.Sane() && Refusal(t, q).None?
    ensures DecisionFits(DecisionOf(LaneOf(Criteria(t, p, q)), q.amount, p.autoMax), t, p, q, p.autoMax)
  {
    GreenIff(t, p, q);
    RedIff(t, p, q);
    hide Criteria, LaneOf, AllClean, SomethingBlocks;
  }

  lemma DocsIsClean(t: Tables, q: Request)
    ensures DocsCriterion(t, q).level == Pass <==> CheckDocs(t, q) == Docs(Pass)
    ensures DocsCriterion(t, q).level == Block <==> CheckDocs(t, q).ForeignCollateral? || CheckDocs(t, q) == Docs(Block)
    ensures CheckDocs(t, q).ForeignCollateral? ==> DocsCriterion(t, q).key == "collateral_ownership"
    ensures Credit.Refusal(t.credit, q.ForCredit()) == Some(Credit.OwnerMismatch) ==> CheckDocs(t, q).ForeignCollateral?
  {
    hide LacksMandatory;
  }

  /** Businesses always go to a person. */
  lemma BusinessIsNeverGreen(t: Tables, p: Policy, q: Request)
    requires p.credit.Sane() && Refusal(t, q).None? && KindOf(t, q.owner) == Business
    ensures AnyAt(Criteria(t, p, q), Caution) && LaneOf(Criteria(t, p, q)) != Green
  {
    assert Criteria(t, p, q)[3].level == Caution;
    hide Criteria;
  }

  /** The approval gate takes every assessment that a classification writes. */
  lemma GateAcceptsAssessments(s: GateMachine.State, t: Tables, p: Policy, q: Request)
    requires p.credit.Sane() && Refusal(t, q).None?
    ensures var criteria := Criteria(t, p, q);
      GateMachine.Next(s, GateMachine.Classify(
        Assessment(q.owner, KindOf(t, q.owner), q.amount, LaneOf(criteria), criteria))).Some?
  {
    hide Criteria, LaneOf, AnyAt;
    if KindOf(t, q.owner) == Business {
      BusinessIsNeverGreen(t, p, q);
    }
  }

  /** What is refused before anything is checked. */
  lemma RefusedIff(t: Tables, q: Request)
    ensures Refusal(t, q) == Some(InvalidParam) <==> q.amount <= 0.0
    ensures Refusal(t, q) == Some(BadEnum) <==>
      q.amount > 0.0 && q.loanType.Some? && q.loanType.value !in ["consumer", "secured"]
    ensures Refusal(t, q) == Some(UnknownOwner) <==>
      && q.amount > 0.0 && (q.loanType.Some? ==> q.loanType.value in ["consumer", "secured"])
      && q.owner !in t.credit.customers.Keys + t.credit.businesses.Keys
  {
  }

  /** Whether a check is reported under the key. */
  predicate Reported(criteria: seq<Criterion>, key: string) {
    exists i :: 0 <= i < |criteria| && criteria[i].key == key
  }

  /** Four checks are always reported, papers under their own key or, for somebody else's collateral, under the
      key of its ownership; the purpose when one is given; the credit verdict unless the collateral was foreign.
      No key comes twice. */
  lemma CriteriaKeys(t: Tables, p: Policy, q: Request)
    requires p.credit.Sane() && KnownOwner(t, q.owner)
    ensures var criteria := Criteria(t, p, q);
      var foreign := q.collateral.Some? && q.collateral.value != "" && q.collateral.value in t.credit.collaterals
                     && t.credit.collaterals[q.collateral.value].owner != q.owner;
      && |criteria| >= 5
      && criteria[0].key == "identity" && criteria[1].key == "criminal" && criteria[2].key == "cic"
      && criteria[3].key == "employment"
      && criteria[4].key == (if foreign then "collateral_ownership" else "docs")
      && (Reported(criteria[5..], "purpose") <==>
            q.purpose.Some? && q.purpose.value != "" && Normalization.Strip(q.purpose.value) != "")
      && (Reported(criteria[5..], "credit") <==> Credit.Refusal(t.credit, q.ForCredit()) != Some(Credit.OwnerMismatch))
      && (forall i :: 5 <= i < |criteria| ==> criteria[i].key in {"purpose", "credit"})
      && (forall i, j :: 0 <= i < j < |criteria| ==> criteria[i].key != criteria[j].key)
  {
    var rest := PurposeCriteria(t, q) + CreditCriteria(t, p, q);
    DocsKey(t, q);
    PurposeKey(t, q);
    hide IdentityLevel, CriminalLevel, CicLevel, EmploymentLevel, CreditLevel, DocsCriterion, PurposeLevel, Credit.Refusal,
         Normalization.Strip;
    assert Criteria(t, p, q)[5..] == rest;
    if rest != [] && rest[0].key == "purpose" {
      assert Reported(rest, "purpose");
    }
    if CreditCriteria(t, p, q) != [] {
      assert rest[|rest| - 1].key == "credit";
    }
  }

  lemma DocsKey(t: Tables, q: Request)
    ensures DocsCriterion(t, q).key ==
      if q.collateral.Some? && q.collateral.value != "" && q.collateral.value in t.credit.collaterals
         && t.credit.collaterals[q.collateral.value].owner != q.owner
      then "collateral_ownership" else "docs"
  {
    hide LacksMandatory, Mentions;
  }

  lemma PurposeKey(t: Tables, q: Request)
    ensures var purpose := PurposeCriteria(t, q);
      && (purpose != [] <==> q.purpose.Some? && q.purpose.value != "" && Normalization.Strip(q.purpose.value) != "")
      && |purpose| <= 1 && (purpose != [] ==> purpose[0].key == "purpose")
  {
    hide Normalization.Strip;
  }

  // ------------------------------------------------------------ monotone lanes

  function Rank(l: Lane): nat {
    match l
    case Green => 0
    case Yellow => 1
    case Red => 2
  }

  function Weight(l: Level): nat {
    match l
    case Pass => 0
    case Caution => 1
    case Block => 2
  }

  function Gravity(d: Decision): nat {
    match d
    case AutoApproveEligible => 0
    case HumanApprovalRequired => 1
    case HumanReviewRequired => 2
    case RejectRecommended => 3
  }

  /** Levels that get no worse give a lane that gets no worse. */
  lemma LaneMonotone(a: seq<Criterion>, b: seq<Criterion>)
    requires |a| == |b| && forall i :: 0 <= i < |a| ==> Weight(a[i].level) <= Weight(b[i].level)
    ensures Rank(LaneOf(a)) <= Rank(LaneOf(b))
  {
    if i :| 0 <= i < |a| && a[i].level == Block {
      assert Weight(a[i].level) <= Weight(b[i].level);
    } else if i :| 0 <= i < |a| && a[i].level == Caution {
      assert Weight(a[i].level) <= Weight(b[i].level);
    }
  }

  lemma CreditLevelFalls(t: Tables, p: Policy, q: Request, less: real)
    requires p.credit.Sane() && 0.0 < less <= q.amount
    requires Credit.Refusal(t.credit, q.ForCredit()).None? ==>
      Credit.FactsOf(t.credit, p.credit, q.ForCredit()).income >= 0.0
    ensures Credit.Refusal(t.credit, q.(amount := less).ForCredit()) == Credit.Refusal(t.credit, q.ForCredit())
    ensures Weight(CreditLevel(t, p, q.(amount := less))) <= Weight(CreditLevel(t, p, q))
  {
    hide Credit.Refusal, Credit.FactsOf, Credit.VerdictOf;
    Credit.LessIsNoWorse(t.credit, p.credit, q.ForCredit(), less);
    assert q.(amount := less).ForCredit() == q.ForCredit().(amount := less);
  }

  lemma ChecksIgnoreAmount(t: Tables, q: Request, less: real)
    ensures DocsCriterion(t, q.(amount := less)) == DocsCriterion(t, q)
    ensures PurposeCriteria(t, q.(amount := less)) == PurposeCriteria(t, q)
  {
    hide LacksMandatory, PurposeLevel;
  }

  /** A smaller amount never makes the lane or the decision more severe. */
  lemma LaneMonotoneInAmount(t: Tables, p: Policy, q: Request, less: real)
    requires p.credit.Sane() && Refusal(t, q).None? && 0.0 < less <= q.amount
    requires Credit.Refusal(t.credit, q.ForCredit()).None? ==>
      Credit.FactsOf(t.credit, p.credit, q.ForCredit()).income >= 0.0
    ensures var a, b := LaneOf(Criteria(t, p, q.(amount := less))), LaneOf(Criteria(t, p, q));
      && Rank(a) <= Rank(b) && (b == Green ==> a == Green) && (a == Red ==> b == Red)
      && var d, e := DecisionOf(a, less, p.autoMax), DecisionOf(b, q.amount, p.autoMax);
         && Gravity(d) <= Gravity(e)
         && (e == AutoApproveEligible ==> d == AutoApproveEligible)
         && (e == HumanApprovalRequired ==> d in {AutoApproveEligible, HumanApprovalRequired})
         && (d == RejectRecommended ==> e == RejectRecommended)
  {
    CreditLevelFalls(t, p, q, less);
    ChecksIgnoreAmount(t, q, less);
    hide CreditLevel, PurposeCriteria, DocsCriterion, IdentityLevel, CriminalLevel, CicLevel, EmploymentLevel,
         Credit.Refusal, Credit.FactsOf;
    LaneMonotone(Criteria(t, p, q.(amount := less)), Criteria(t, p, q));
  }
}
