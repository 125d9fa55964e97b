/**
 Credit assessment: `_annuity`, `_assumptions` and `credit_assess` of roles/credit/functions.py. Doubles
 are taken as reals; `round` rounds half to even.
 */
module Credit {
  import opened Wrappers

  // ------------------------------------------------------------ rounding

  function HalfEven(x: real): int {
    var f := x.Floor;
    var d := x - f as real;
    if d < 0.5 || (d == 0.5 && f % 2 == 0) then f else f + 1
  }

  /** `round(x, n)` for scale 10^n. */
  function Round(x: real, scale: real): real
    requires scale > 0.0
  {
    HalfEven(x * scale) as real / scale
  }

  lemma HalfEvenMonotone(x: real, y: real)
    requires x <= y
    ensures HalfEven(x) <= HalfEven(y)
  {
    assert x.Floor <= y.Floor;
  }

  lemma DivideMonotone(a: real, b: real, c: real)
    requires a <= b && c > 0.0
    ensures a / c <= b / c
  {
    assert (b - a) / c >= 0.0;
    assert b / c - a / c == (b - a) / c;
  }

  lemma RoundMonotone(x: real, y: real, scale: real)
    requires x <= y && scale > 0.0
    ensures Round(x, scale) <= Round(y, scale)
  {
    assert (y - x) * scale >= 0.0;
    assert y * scale - x * scale == (y - x) * scale;
    HalfEvenMonotone(x * scale, y * scale);
    DivideMonotone(HalfEven(x * scale) as real, HalfEven(y * scale) as real, scale);
  }

  /** Rounding gives a multiple of the step that is nearest; of two nearest ones, the even one. */
  lemma RoundIsNearest(x: real, scale: real) returns (n: int)
    requires scale > 0.0
    ensures Round(x, scale) * scale == n as real
    ensures -0.5 <= n as real - x * scale <= 0.5
    ensures n as real - x * scale == 0.5 || n as real - x * scale == -0.5 ==> n % 2 == 0
  {
    n := HalfEven(x * scale);
    assert n as real / scale * scale == n as real;
  }

  // ------------------------------------------------------------ the annuity

  function Power(q: real, n: nat): real {
    if n == 0 then 1.0 else q * Power(q, n - 1)
  }

  lemma ScaleUp(q: real, p: real)
    requires p > 0.0
    ensures q > 1.0 ==> q * p > p
    ensures 0.0 < q < 1.0 ==> 0.0 < q * p < p
  {
    assert q * p - p == (q - 1.0) * p;
  }

  lemma Scaled(q: real, p: real, next: real)
    requires p > 0.0 && next == q * p
    ensures q > 1.0 ==> next > p
    ensures 0.0 < q < 1.0 ==> 0.0 < next < p
  {
    ScaleUp(q, p);
  }

  lemma PowerNext(q: real, n: nat)
    requires n > 0
    ensures Power(q, n) == q * Power(q, n - 1)
  {
  }

  lemma {:induction false} PowerSide(q: real, n: nat)
    requires q > 0.0
    ensures Power(q, n) > 0.0
    ensures q > 1.0 ==> Power(q, n) >= 1.0
    ensures q < 1.0 ==> Power(q, n) <= 1.0
  {
    if n > 0 {
      PowerNext(q, n);
      PowerSide(q, n - 1);
      hide Power;
      ScaleUp(q, Power(q, n - 1));
    }
  }

  lemma {:induction false} PowerMoves(q: real, k: nat, n: nat)
    requires q > 0.0 && k < n
    ensures q > 1.0 ==> Power(q, k) < Power(q, n)
    ensures q < 1.0 ==> Power(q, n) < Power(q, k)
    decreases n
  {
    PowerSide(q, n - 1);
    Scaled(q, Power(q, n - 1), Power(q, n));
    hide Power;
    if k < n - 1 {
      PowerMoves(q, k, n - 1);
    }
  }

  /** Powers run away from one: up for a base above one, down for a base below. */
  lemma PowerSpread(q: real, k: nat, n: nat)
    requires q > 0.0 && q != 1.0 && k <= n && n >= 1
    ensures Power(q, n) > 0.0
    ensures q > 1.0 ==> Power(q, n) > 1.0 && Power(q, k) <= Power(q, n)
    ensures q < 1.0 ==> Power(q, n) < 1.0 && Power(q, n) <= Power(q, k)
  {
    assert Power(q, 0) == 1.0;
    PowerMoves(q, 0, n);
    PowerSide(q, n);
    if k < n {
      PowerMoves(q, k, n);
    }
  }

  /** The formula divides by something other than zero. */
  lemma AnnuityDefined(rate: real, n: nat)
    requires rate > -12.0 && rate != 0.0 && n >= 1
    ensures Power(1.0 + rate / 12.0, n) != 1.0
  {
    PowerSpread(1.0 + rate / 12.0, n, n);
  }

  function Annuity(principal: real, rate: real, n: nat): real
    requires rate > -12.0 && n >= 1
  {
    var r := rate / 12.0;
    if r == 0.0 then principal / n as real
    else
      AnnuityDefined(rate, n);
      principal * r * Power(1.0 + r, n) / (Power(1.0 + r, n) - 1.0)
  }

  /** What is owed after `k` months of paying `pay`. */
  function Balance(principal: real, rate: real, pay: real, k: nat): real {
    if k == 0 then principal else Balance(principal, rate, pay, k - 1) * (1.0 + rate / 12.0) - pay
  }

  lemma {:induction false} BalanceFlat(principal: real, n: nat, k: nat)
    requires n >= 1
    ensures Balance(principal, 0.0, principal / n as real, k) * n as real == principal * (n as real - k as real)
  {
    var pay := principal / n as real;
    assert pay * n as real == principal;
    if k > 0 {
      BalanceFlat(principal, n, k - 1);
      var b := Balance(principal, 0.0, pay, k - 1);
      assert 0.0 / 12.0 == 0.0;
      assert (b - pay) * n as real == b * n as real - pay * n as real;
    }
  }

  lemma AnnuityTimes(principal: real, rate: real, n: nat)
    requires rate > -12.0 && rate != 0.0 && n >= 1
    ensures var r := rate / 12.0; var pn := Power(1.0 + r, n);
      Annuity(principal, rate, n) * (pn - 1.0) == principal * r * pn
  {
    AnnuityDefined(rate, n);
    hide Power;
  }

  /** The balance in closed form, multiplied out. */
  lemma {:induction false} BalanceClosed(principal: real, rate: real, n: nat, k: nat)
    requires rate > -12.0 && rate != 0.0 && n >= 1
    ensures var q := 1.0 + rate / 12.0;
      Balance(principal, rate, Annuity(principal, rate, n), k) * (Power(q, n) - 1.0)
      == principal * (Power(q, n) - Power(q, k))
  {
    var r := rate / 12.0;
    var q := 1.0 + r;
    var pn := Power(q, n);
    var pay := Annuity(principal, rate, n);
    AnnuityTimes(principal, rate, n);
    hide Annuity;
    if k > 0 {
      BalanceClosed(principal, rate, n, k - 1);
      ClosedStep(principal, r, pn, pay, Balance(principal, rate, pay, k - 1), Power(q, k - 1));
    }
  }

  lemma ClosedStep(p: real, r: real, pn: real, pay: real, b: real, pk: real)
    requires pay * (pn - 1.0) == p * r * pn
    requires b * (pn - 1.0) == p * (pn - pk)
    ensures (b * (1.0 + r) - pay) * (pn - 1.0) == p * (pn - (1.0 + r) * pk)
  {
    var d := pn - 1.0;
    assert (b * (1.0 + r) - pay) * d == (b * d) * (1.0 + r) - pay * d;
    assert p * (pn - pk) * (1.0 + r) - p * r * pn == p * (pn - (1.0 + r) * pk);
  }

  lemma QuotientOfProduct(a: real, b: real, d: real)
    requires d != 0.0
    ensures a * b / d == a * (b / d)
  {
    assert (b / d) * d == b;
    assert a * (b / d) * d == a * b;
  }

  lemma SignOfQuotient(b: real, d: real, e: real)
    requires b * d == e && d != 0.0
    ensures e == 0.0 ==> b == 0.0
    ensures (d > 0.0 && e >= 0.0) || (d < 0.0 && e <= 0.0) ==> b >= 0.0
    ensures (d > 0.0 && e > 0.0) || (d < 0.0 && e < 0.0) ==> b > 0.0
  {
    assert b == e / d;
  }

  lemma SignOfProduct(a: real, b: real)
    ensures a >= 0.0 && b >= 0.0 ==> a * b >= 0.0
    ensures a >= 0.0 && b <= 0.0 ==> a * b <= 0.0
    ensures a > 0.0 && b > 0.0 ==> a * b > 0.0
    ensures a > 0.0 && b < 0.0 ==> a * b < 0.0
    ensures a < 0.0 && b < 0.0 ==> a * b > 0.0
  {
  }

  /** Amortisation: paying the annuity each month takes the balance from the principal to exactly zero
      after `n` months, and never below zero before. */
  lemma AnnuityAmortises(principal: real, rate: real, n: nat, k: nat)
    requires rate > -12.0 && n >= 1 && k <= n && principal >= 0.0
    ensures Balance(principal, rate, Annuity(principal, rate, n), n) == 0.0
    ensures Balance(principal, rate, Annuity(principal, rate, n), k) >= 0.0
  {
    if rate == 0.0 {
      BalanceFlat(principal, n, k);
      BalanceFlat(principal, n, n);
      SignOfProduct(principal, n as real - k as real);
      SignOfQuotient(Balance(principal, rate, principal / n as real, k), n as real, principal * (n as real - k as real));
      SignOfQuotient(Balance(principal, rate, principal / n as real, n), n as real, 0.0);
    } else {
      var q := 1.0 + rate / 12.0;
      BalanceClosed(principal, rate, n, k);
      BalanceClosed(principal, rate, n, n);
      AnnuityDefined(rate, n);
      var d := Power(q, n) - 1.0;
      PowerSpread(q, k, n);
      hide Annuity, Balance, Power;
      SignOfProduct(principal, Power(q, n) - Power(q, k));
      var pay := Annuity(principal, rate, n);
      SignOfQuotient(Balance(principal, rate, pay, k), d, principal * (Power(q, n) - Power(q, k)));
      SignOfQuotient(Balance(principal, rate, pay, n), d, principal * (Power(q, n) - Power(q, n)));
    }
  }

  /** The payment is proportional to the principal, and positive for a positive principal. */
  lemma AnnuityIsLinear(principal: real, rate: real, n: nat)
    requires rate > -12.0 && n >= 1
    ensures Annuity(principal, rate, n) == principal * Annuity(1.0, rate, n)
    ensures Annuity(1.0, rate, n) > 0.0
  {
    if rate == 0.0 {
    } else {
      var r := rate / 12.0;
      var q := 1.0 + r;
      AnnuityDefined(rate, n);
      var p, d := Power(q, n), Power(q, n) - 1.0;
      assert principal * r * p == principal * (r * p);
      QuotientOfProduct(principal, r * p, d);
      assert Annuity(1.0, rate, n) == r * p / d;
      PowerSpread(q, n, n);
      hide Power;
      SignOfProduct(p, r);
      assert Annuity(1.0, rate, n) * d == r * p;
      SignOfQuotient(Annuity(1.0, rate, n), d, r * p);
    }
  }

  // ------------------------------------------------------------ assumptions

  /** A row of the assumptions table: its text, and the number that float() reads in it, if any. */
  datatype Setting = Setting(key: string, text: Option<string>, number: Option<real>)

  /** The last number given for each key; values that are not numbers are skipped. */
  function NumbersOf(rows: seq<Setting>): map<string, real> {
    if rows == [] then map[]
    else
      var before, row := NumbersOf(rows[..|rows| - 1]), rows[|rows| - 1];
      if row.number.Some? then before[row.key := row.number.value] else before
  }

  /** Whether row `i` holds the last number for `key`. */
  predicate LastNumber(rows: seq<Setting>, key: string, i: nat) {
    && i < |rows| && rows[i].key == key && rows[i].number.Some?
    && forall j :: i < j < |rows| && rows[j].key == key ==> rows[j].number.None?
  }

  lemma {:induction false} NumberIsLast(rows: seq<Setting>, key: string, i: nat)
    requires LastNumber(rows, key, i)
    ensures key in NumbersOf(rows) && NumbersOf(rows)[key] == rows[i].number.value
  {
    if i < |rows| - 1 {
      NumberIsLast(rows[..|rows| - 1], key, i);
    }
  }

  lemma {:induction false} NumberHasRow(rows: seq<Setting>, key: string) returns (i: nat)
    requires key in NumbersOf(rows)
    ensures LastNumber(rows, key, i)
  {
    i := |rows| - 1;
    if !(rows[i].key == key && rows[i].number.Some?) {
      i := NumberHasRow(rows[..|rows| - 1], key);
    }
  }

  /** `_assumptions`. */
  method Assumptions(rows: seq<Setting>) returns (out: map<string, real>)
    ensures out == NumbersOf(rows)
    ensures forall k :: k in out ==> exists i: nat :: LastNumber(rows, k, i) && out[k] == rows[i].number.value
    ensures forall i :: 0 <= i < |rows| && LastNumber(rows, rows[i].key, i) ==>
      rows[i].key in out && out[rows[i].key] == rows[i].number.value
  {
    out := map[];
    for n := 0 to |rows|
      invariant out == NumbersOf(rows[..n])
    {
      assert rows[..n + 1][..n] == rows[..n];
      if rows[n].number.Some? {
        out := out[rows[n].key := rows[n].number.value];
      }
    }
    assert rows[..|rows|] == rows;
    forall k | k in out ensures exists i: nat :: LastNumber(rows, k, i) && out[k] == rows[i].number.value {
      var i := NumberHasRow(rows, k);
      NumberIsLast(rows, k, i);
    }
    forall i | 0 <= i < |rows| && LastNumber(rows, rows[i].key, i)
      ensures rows[i].key in out && out[rows[i].key] == rows[i].number.value
    {
      NumberIsLast(rows, rows[i].key, i);
    }
  }

  datatype Policy = Policy(
    dscrMin: real, ltvMax: real, capPct: real, equityBil: real,
    rateSecured: real, rateConsumer: real, termSecured: int, termConsumer: int)
  {
    /** The formula is defined for the configured rates and terms. */
    predicate Sane() {
      rateSecured > -12.0 && rateConsumer > -12.0 && termSecured >= 1 && termConsumer >= 1
    }

    /** The most that one customer may borrow. */
    function Cap(): real {
      capPct * (equityBil * 1000000000.0)
    }
  }

  function GetOr(a: map<string, real>, key: string, default: real): real {
    if key in a then a[key] else default
  }

  /** int() drops the fraction. */
  function Truncated(x: real): int {
    if x >= 0.0 then x.Floor else -((-x).Floor)
  }

  function PolicyOf(a: map<string, real>): Policy {
    Policy(GetOr(a, "dscr_min", 1.2), GetOr(a, "ltv_max", 0.70), GetOr(a, "single_customer_cap_pct", 0.15),
           GetOr(a, "bank_equity_bil_vnd", 50000.0), GetOr(a, "rate_secured_annual", 0.08),
           GetOr(a, "rate_consumer_annual", 0.15), Truncated(GetOr(a, "term_secured_months", 180.0)),
           Truncated(GetOr(a, "term_consumer_months", 60.0)))
  }

  /** `v` is the last number that the table gives for the key, or the default when it gives none. */
  ghost predicate Configured(rows: seq<Setting>, key: string, default: real, v: real) {
    if exists i: nat :: LastNumber(rows, key, i) then exists i: nat :: LastNumber(rows, key, i) && rows[i].number.value == v
    else v == default
  }

  lemma GetIsConfigured(rows: seq<Setting>, key: string, default: real)
    ensures Configured(rows, key, default, GetOr(NumbersOf(rows), key, default))
  {
    if i: nat :| LastNumber(rows, key, i) {
      NumberIsLast(rows, key, i);
    } else if key in NumbersOf(rows) {
      var i := NumberHasRow(rows, key);
    }
  }

  /** The whole number that is left of a setting without its fraction. */
  predicate WholePart(n: int, v: real) {
    if v >= 0.0 then n as real <= v < n as real + 1.0 else n as real - 1.0 < v <= n as real
  }

  lemma TruncatedIsWholePart(v: real)
    ensures WholePart(Truncated(v), v)
  {
  }

  /** Every part of the policy is read from its own row of the table, or has its default. */
  ghost predicate PolicyReads(rows: seq<Setting>, p: Policy) {
    && Configured(rows, "dscr_min", 1.2, p.dscrMin)
    && Configured(rows, "ltv_max", 0.7, p.ltvMax)
    && Configured(rows, "rate_secured_annual", 0.08, p.rateSecured)
    && Configured(rows, "rate_consumer_annual", 0.15, p.rateConsumer)
    && (exists pct: real, bil: real ::
          && Configured(rows, "single_customer_cap_pct", 0.15, pct)
          && Configured(rows, "bank_equity_bil_vnd", 50000.0, bil)
          && p.Cap() == pct * bil * 1_000_000_000.0)
    && (exists v :: Configured(rows, "term_secured_months", 180.0, v) && WholePart(p.termSecured, v))
    && (exists v :: Configured(rows, "term_consumer_months", 60.0, v) && WholePart(p.termConsumer, v))
  }

  lemma PolicyIsRead(rows: seq<Setting>)
    ensures PolicyReads(rows, PolicyOf(NumbersOf(rows)))
  {
    GetIsConfigured(rows, "dscr_min", 1.2);
    GetIsConfigured(rows, "ltv_max", 0.7);
    GetIsConfigured(rows, "rate_secured_annual", 0.08);
    GetIsConfigured(rows, "rate_consumer_annual", 0.15);
    GetIsConfigured(rows, "single_customer_cap_pct", 0.15);
    GetIsConfigured(rows, "bank_equity_bil_vnd", 50000.0);
    GetIsConfigured(rows, "term_secured_months", 180.0);
    GetIsConfigured(rows, "term_consumer_months", 60.0);
    hide Configured, NumbersOf, GetOr, Truncated;
    var a := NumbersOf(rows);
    TruncatedIsWholePart(GetOr(a, "term_secured_months", 180.0));
    TruncatedIsWholePart(GetOr(a, "term_consumer_months", 60.0));
    hide WholePart;
  }

  // ------------------------------------------------------------ the verdict on given facts

  datatype Reason = DscrBelowMin | LtvAboveMax | ExceedsCap | BadDebt

  datatype Missing = NoCollateral | Documents | NoIncome

  datatype Verdict = Eligible | NeedsInfo | Ineligible | InfoOnly {
    /** From eligible to ineligible. */
    function Severity(): nat {
      match this
      case Eligible => 0
      case NeedsInfo => 1
      case Ineligible => 2
      case InfoOnly => 1
    }
  }

  /** What the verdict depends on. */
  datatype Facts = Facts(
    income: real,
    existing: real,
    amount: real,
    rate: real,
    term: nat,
    secured: bool,
    collateral: Option<Collateral>,
    cicGroup: Option<int>)
  {
    predicate Sane() {
      rate > -12.0 && term >= 1
    }
  }

  /** `papers` is the state of its documents. */
  datatype Collateral = Collateral(owner: string, appraised: real, papers: string) {
    predicate Complete() {
      papers == "complete"
    }
  }

  function NewPayment(f: Facts): real
    requires f.Sane()
  {
    if f.amount > 0.0 then Annuity(f.amount, f.rate, f.term) else 0.0
  }

  function Ratio(a: real, b: real): real
    requires b > 0.0
  {
    Round(a / b, 1000.0)
  }

  function Dscr(f: Facts): Option<real>
    requires f.Sane()
  {
    var total := f.existing + NewPayment(f);
    if total > 0.0 then Some(Ratio(f.income, total)) else None
  }

  function Ltv(f: Facts): Option<real> {
    if f.collateral.Some? && f.amount > 0.0 && f.collateral.value.appraised > 0.0
    then Some(Ratio(f.amount, f.collateral.value.appraised)) else None
  }

  /** Whether a reason against the loan applies. */
  predicate Applies(p: Policy, f: Facts, r: Reason)
    requires f.Sane()
  {
    f.amount > 0.0 &&
    match r
    case DscrBelowMin => Dscr(f).Some? && Dscr(f).value < p.dscrMin
    case LtvAboveMax => Ltv(f).Some? && Ltv(f).value > p.ltvMax
    case ExceedsCap => f.amount > p.Cap()
    case BadDebt => f.cicGroup.Some? && f.cicGroup.value >= 3
  }

  predicate Lacks(f: Facts, m: Missing) {
    match m
    case NoCollateral => f.amount > 0.0 && f.secured && f.collateral.None?
    case Documents => f.amount > 0.0 && f.collateral.Some? && !f.collateral.value.Complete()
    case NoIncome => f.income <= 0.0
  }

  /** What the verdict means: the worst thing found, or that nothing was asked. */
  ghost predicate IsVerdict(p: Policy, f: Facts, v: Verdict)
    requires f.Sane()
  {
    match v
    case Ineligible => exists r :: Applies(p, f, r)
    case NeedsInfo => (forall r :: !Applies(p, f, r)) && exists m :: Lacks(f, m)
    case Eligible => f.amount > 0.0 && (forall r :: !Applies(p, f, r)) && forall m :: !Lacks(f, m)
    case InfoOnly => f.amount <= 0.0 && (forall r :: !Applies(p, f, r)) && forall m :: !Lacks(f, m)
  }

  datatype Judgement = Judgement(
    verdict: Verdict, dscr: Option<real>, ltv: Option<real>, reasons: seq<Reason>, missing: seq<Missing>)

  /** The second half of `credit_assess`: metrics, reasons, missing pieces and the verdict. */
  method Judge(p: Policy, f: Facts) returns (j: Judgement)
    requires f.Sane()
    ensures j.dscr == Dscr(f) && j.ltv == Ltv(f)
    ensures forall r :: r in j.reasons <==> Applies(p, f, r)
    ensures forall m :: m in j.missing <==> Lacks(f, m)
    ensures IsVerdict(p, f, j.verdict)
  {
    hide Dscr, Ltv, IsVerdict;
    var dscr, ltv := Dscr(f), Ltv(f);
    var reasons: seq<Reason>, missing: seq<Missing> := [], [];
    if f.amount > 0.0 {
      if dscr.Some? && dscr.value < p.dscrMin {
        reasons := reasons + [DscrBelowMin];
      }
      if ltv.Some? && ltv.value > p.ltvMax {
        reasons := reasons + [LtvAboveMax];
      }
      if f.amount > p.Cap() {
        reasons := reasons + [ExceedsCap];
      }
      if f.cicGroup.Some? && f.cicGroup.value >= 3 {
        reasons := reasons + [BadDebt];
      }
      if f.secured && f.collateral.None? {
        missing := missing + [NoCollateral];
      }
      if f.collateral.Some? && !f.collateral.value.Complete() {
        missing := missing + [Documents];
      }
    }
    if f.income <= 0.0 {
      missing := missing + [NoIncome];
    }
    var verdict := if missing != [] && reasons == [] then NeedsInfo
      else if reasons != [] then Ineligible
      else if f.amount > 0.0 then Eligible else InfoOnly;
    ListsGiveVerdict(p, f, reasons, missing, verdict);
    return Judgement(verdict, dscr, ltv, reasons, missing);
  }

  lemma ListsGiveVerdict(p: Policy, f: Facts, reasons: seq<Reason>, missing: seq<Missing>, v: Verdict)
    requires f.Sane()
    requires forall r :: r in reasons <==> Applies(p, f, r)
    requires forall m :: m in missing <==> Lacks(f, m)
    requires v == if missing != [] && reasons == [] then NeedsInfo
      else if reasons != [] then Ineligible
      else if f.amount > 0.0 then Eligible else InfoOnly
    ensures IsVerdict(p, f, v)
  {
    hide Applies, Lacks;
    assert reasons != [] ==> Applies(p, f, reasons[0]);
    assert missing != [] ==> Lacks(f, missing[0]);
  }

  function VerdictOf(p: Policy, f: Facts): (v: Verdict)
    requires f.Sane()
    ensures IsVerdict(p, f, v)
  {
    if exists r :: Applies(p, f, r) then Ineligible
    else if exists m :: Lacks(f, m) then NeedsInfo
    else if f.amount > 0.0 then Eligible else InfoOnly
  }

  /** Exactly one verdict fits. */
  lemma VerdictIsUnique(p: Policy, f: Facts, v: Verdict, w: Verdict)
    requires f.Sane() && IsVerdict(p, f, v) && IsVerdict(p, f, w)
    ensures v == w
  {
  }

  /** A loan is eligible exactly when money is asked for, there is income, the instalments leave the income
      the required share, the collateral covers the amount and its papers are complete, the cap of one
      customer holds, and the credit history is no worse than group two. */
  lemma EligibleIff(p: Policy, f: Facts)
    requires f.Sane()
    ensures VerdictOf(p, f) == Eligible <==>
      && f.amount > 0.0 && f.income > 0.0
      && (var total := f.existing + Annuity(f.amount, f.rate, f.term);
          total > 0.0 ==> Round(f.income / total, 1000.0) >= p.dscrMin)
      && (f.secured ==> f.collateral.Some?)
      && (f.collateral.Some? ==>
            var c := f.collateral.value;
            c.papers == "complete" && (c.appraised > 0.0 ==> Round(f.amount / c.appraised, 1000.0) <= p.ltvMax))
      && f.amount <= p.capPct * (p.equityBil * 1000000000.0)
      && (f.cicGroup.Some? ==> f.cicGroup.value <= 2)
  {
    hide Annuity, Round;
    if VerdictOf(p, f) == Eligible {
      assert !Applies(p, f, DscrBelowMin) && !Applies(p, f, LtvAboveMax);
      assert !Applies(p, f, ExceedsCap) && !Applies(p, f, BadDebt);
      assert !Lacks(f, NoCollateral) && !Lacks(f, Documents) && !Lacks(f, NoIncome);
    }
  }

  /** A loan is ineligible exactly when money is asked for and the instalments, the collateral's value, the cap
      or a history of group three and worse speaks against it; missing papers alone never refuse it. */
  lemma IneligibleIff(p: Policy, f: Facts)
    requires f.Sane()
    ensures VerdictOf(p, f) == Ineligible <==>
      && f.amount > 0.0
      && (|| (var total := f.existing + Annuity(f.amount, f.rate, f.term);
              total > 0.0 && Round(f.income / total, 1000.0) < p.dscrMin)
          || (f.collateral.Some? && f.collateral.value.appraised > 0.0
              && Round(f.amount / f.collateral.value.appraised, 1000.0) > p.ltvMax)
          || f.amount > p.capPct * (p.equityBil * 1000000000.0)
          || (f.cicGroup.Some? && f.cicGroup.value > 2))
  {
    hide Annuity, Round;
    if VerdictOf(p, f) != Ineligible {
      assert !Applies(p, f, DscrBelowMin) && !Applies(p, f, LtvAboveMax);
      assert !Applies(p, f, ExceedsCap) && !Applies(p, f, BadDebt);
    } else {
      var r :| Applies(p, f, r);
    }
  }

  /** The two ratios that are reported: debt service over everything that is to be paid each month, and the
      loan to its collateral; a request without an amount adds no instalment and has no loan to value. */
  lemma MetricsAre(f: Facts)
    requires f.Sane()
    ensures var total := if f.amount > 0.0 then f.existing + Annuity(f.amount, f.rate, f.term) else f.existing;
      Dscr(f) == if total > 0.0 then Some(Round(f.income / total, 1000.0)) else None
    ensures f.amount <= 0.0 ==> Ltv(f) == None
    ensures f.amount > 0.0 && f.collateral.Some? && f.collateral.value.appraised > 0.0 ==>
      Ltv(f) == Some(Round(f.amount / f.collateral.value.appraised, 1000.0))
    ensures f.collateral.None? || f.collateral.value.appraised <= 0.0 ==> Ltv(f) == None
  {
    hide Annuity, Round;
  }

  // ------------------------------------------------------------ monotone underwriting

  lemma QuotientShrinks(a: real, b: real, c: real)
    requires a >= 0.0 && 0.0 < b <= c
    ensures a / c <= a / b
  {
    var x, y := a / b, a / c;
    assert x * b == a && y * c == a && y >= 0.0;
    assert (x - y) * b == y * (c - b);
    SignOfProduct(y, c - b);
    SignOfQuotient(x - y, b, y * (c - b));
  }

  lemma PaymentGrows(f: Facts, g: Facts)
    requires f.Sane() && g == f.(amount := g.amount) && 0.0 < f.amount <= g.amount
    ensures NewPayment(f) <= NewPayment(g)
  {
    AnnuityIsLinear(f.amount, f.rate, f.term);
    AnnuityIsLinear(g.amount, f.rate, f.term);
    var unit := Annuity(1.0, f.rate, f.term);
    assert (g.amount - f.amount) * unit >= 0.0;
    assert g.amount * unit - f.amount * unit == (g.amount - f.amount) * unit;
  }

  /** Asking for less removes reasons and adds none, and what is missing stays the same. */
  lemma LessAsksLess(p: Policy, f: Facts, g: Facts, r: Reason)
    requires f.Sane() && g == f.(amount := g.amount) && 0.0 < f.amount <= g.amount && f.income >= 0.0
    ensures Applies(p, f, r) ==> Applies(p, g, r)
    ensures forall m :: Lacks(f, m) <==> Lacks(g, m)
  {
    match r
    case DscrBelowMin =>
      PaymentGrows(f, g);
      var a, b := f.existing + NewPayment(f), f.existing + NewPayment(g);
      hide NewPayment, Round;
      if a > 0.0 {
        QuotientShrinks(f.income, a, b);
        RoundMonotone(f.income / b, f.income / a, 1000.0);
      }
    case LtvAboveMax =>
      if Ltv(f).Some? {
        hide Round;
        DivideMonotone(f.amount, g.amount, f.collateral.value.appraised);
        RoundMonotone(f.amount / f.collateral.value.appraised, g.amount / f.collateral.value.appraised, 1000.0);
      }
    case ExceedsCap =>
    case BadDebt =>
  }

  /** The verdict gets no worse when the amount falls; in particular an eligible amount stays eligible. */
  lemma VerdictMonotoneInAmount(p: Policy, f: Facts, g: Facts, v: Verdict, w: Verdict)
    requires f.Sane() && g == f.(amount := g.amount) && 0.0 < f.amount <= g.amount && f.income >= 0.0
    requires IsVerdict(p, f, v) && IsVerdict(p, g, w)
    ensures v.Severity() <= w.Severity()
    ensures w == Eligible ==> v == Eligible
    ensures v == Ineligible ==> w == Ineligible
  {
    forall r ensures Applies(p, f, r) ==> Applies(p, g, r) {
      LessAsksLess(p, f, g, r);
    }
    LessAsksLess(p, f, g, BadDebt);
    hide Applies, Lacks;
  }

  /** More income never hurts: it removes reasons and missing pieces and adds none. */
  lemma MoreIncomeHelps(p: Policy, f: Facts, g: Facts, r: Reason)
    requires f.Sane() && g == f.(income := g.income) && f.income <= g.income
    ensures Applies(p, g, r) ==> Applies(p, f, r)
    ensures forall m :: Lacks(g, m) ==> Lacks(f, m)
  {
    if r == DscrBelowMin {
      var total := f.existing + NewPayment(f);
      assert NewPayment(g) == NewPayment(f);
      hide NewPayment, Round;
      if total > 0.0 {
        DivideMonotone(f.income, g.income, total);
        RoundMonotone(f.income / total, g.income / total, 1000.0);
      }
    } else {
      assert Ltv(f) == Ltv(g);
      hide Dscr, Ltv;
    }
  }

  lemma VerdictMonotoneInIncome(p: Policy, f: Facts, g: Facts, v: Verdict, w: Verdict)
    requires f.Sane() && g == f.(income := g.income) && f.income <= g.income
    requires IsVerdict(p, f, v) && IsVerdict(p, g, w)
    ensures w.Severity() <= v.Severity()
    ensures v == Eligible ==> w == Eligible
    ensures w == Ineligible ==> v == Ineligible
  {
    forall r ensures Applies(p, g, r) ==> Applies(p, f, r) {
      MoreIncomeHelps(p, f, g, r);
    }
    MoreIncomeHelps(p, f, g, BadDebt);
    hide Applies, Lacks;
  }

  // ------------------------------------------------------------ credit_assess

  datatype Loan = Loan(owner: string, active: bool, payment: real)

  /** Incomes: customers have a monthly one, businesses a yearly revenue. */
  datatype Tables = Tables(
    settings: seq<Setting>,
    customers: map<string, real>,
    businesses: map<string, real>,
    loans: seq<Loan>,
    collaterals: map<string, Collateral>,
    cic: map<string, int>)

  datatype Request = Request(
    owner: string, amount: real, collateral: Option<string>, loanType: Option<string>, term: Option<int>,
    verifiedIncome: Option<real>)

  datatype Error = InvalidParam | BadEnum | UnknownOwner | UnknownCollateral | OwnerMismatch

  datatype Outcome = Refused(error: Error) | Assessed(facts: Facts, j: Judgement)

  predicate Names(id: Option<string>) {
    id.Some? && id.value != ""
  }

  /** The first thing wrong with a request. */
  function Refusal(t: Tables, q: Request): Option<Error> {
    if q.amount < 0.0 || (q.term.Some? && q.term.value <= 0) then Some(InvalidParam)
    else if q.loanType.Some? && q.loanType.value != "consumer" && q.loanType.value != "secured" then Some(BadEnum)
    else if q.verifiedIncome.Some? && q.verifiedIncome.value <= 0.0 then Some(InvalidParam)
    else if q.owner !in t.customers && q.owner !in t.businesses then Some(UnknownOwner)
    else if Names(q.collateral) && q.collateral.value !in t.collaterals then Some(UnknownCollateral)
    else if Names(q.collateral) && t.collaterals[q.collateral.value].owner != q.owner then Some(OwnerMismatch)
    else None
  }

  function Payments(loans: seq<Loan>, owner: string): real {
    if loans == [] then 0.0
    else Payments(loans[1..], owner) + (if loans[0].owner == owner && loans[0].active then loans[0].payment else 0.0)
  }

  /** The type that was asked for, else the one the collateral suggests. */
  predicate IsSecured(q: Request) {
    if q.loanType.Some? then q.loanType.value == "secured" else Names(q.collateral)
  }

  function IncomeOf(t: Tables, q: Request): real
    requires q.owner in t.customers || q.owner in t.businesses
  {
    if q.verifiedIncome.Some? then q.verifiedIncome.value
    else if q.owner in t.customers then t.customers[q.owner]
    else t.businesses[q.owner] / 12.0
  }

  function FactsOf(t: Tables, p: Policy, q: Request): (f: Facts)
    requires p.Sane() && Refusal(t, q).None?
    ensures f.Sane()
  {
    Facts(IncomeOf(t, q), Payments(t.loans, q.owner), q.amount,
          if IsSecured(q) then p.rateSecured else p.rateConsumer,
          if q.term.Some? then q.term.value else if IsSecured(q) then p.termSecured else p.termConsumer,
          IsSecured(q),
          if Names(q.collateral) then Some(t.collaterals[q.collateral.value]) else None,
          if q.owner in t.cic then Some(t.cic[q.owner]) else None)
  }

  method CreditAssess(t: Tables, q: Request) returns (o: Outcome)
    requires PolicyOf(NumbersOf(t.settings)).Sane()
    ensures o.Refused? <==> Refusal(t, q).Some?
    ensures o.Refused? ==> Refusal(t, q) == Some(o.error)
    ensures o.Assessed? ==>
      var p := PolicyOf(NumbersOf(t.settings));
      && o.facts == FactsOf(t, p, q)
      && o.j.verdict == VerdictOf(p, o.facts) && o.j.dscr == Dscr(o.facts) && o.j.ltv == Ltv(o.facts)
      && (forall r :: r in o.j.reasons <==> Applies(p, o.facts, r))
      && (forall m :: m in o.j.missing <==> Lacks(o.facts, m))
  {
    if q.amount < 0.0 || (q.term.Some? && q.term.value <= 0) {
      return Refused(InvalidParam);
    }
    if q.loanType.Some? && q.loanType.value != "consumer" && q.loanType.value != "secured" {
      return Refused(BadEnum);
    }
    if q.verifiedIncome.Some? && q.verifiedIncome.value <= 0.0 {
      return Refused(InvalidParam);
    }
    var settings := Assumptions(t.settings);
    var p := PolicyOf(settings);
    hide PolicyOf;
    var secured := (q.loanType.None? && Names(q.collateral)) || q.loanType == Some("secured");
    var rate := if secured then p.rateSecured else p.rateConsumer;
    var term := if q.term.Some? then q.term.value else if secured then p.termSecured else p.termConsumer;
    var income: real;
    if q.owner in t.customers {
      income := t.customers[q.owner];
    } else if q.owner in t.businesses {
      income := t.businesses[q.owner] / 12.0;
    } else {
      return Refused(UnknownOwner);
    }
    if q.verifiedIncome.Some? {
      income := q.verifiedIncome.value;
    }
    var collateral := None;
    if Names(q.collateral) {
      if q.collateral.value !in t.collaterals {
        return Refused(UnknownCollateral);
      }
      collateral := Some(t.collaterals[q.collateral.value]);
      if collateral.value.owner != q.owner {
        return Refused(OwnerMismatch);
      }
    }
    var cic := if q.owner in t.cic then Some(t.cic[q.owner]) else None;
    var f := Facts(income, Payments(t.loans, q.owner), q.amount, rate, term, secured, collateral, cic);
    var j := Judge(p, f);
    hide Applies, Lacks, Dscr, Ltv, IsVerdict, VerdictOf;
    VerdictIsUnique(p, f, j.verdict, VerdictOf(p, f));
    return Assessed(f, j);
  }

  /** Asking for less: the request is refused alike, and its verdict gets no worse. */
  lemma LessIsNoWorse(t: Tables, p: Policy, q: Request, less: real)
    requires p.Sane() && 0.0 < less <= q.amount
    ensures Refusal(t, q.(amount := less)) == Refusal(t, q)
    ensures Refusal(t, q).None? && FactsOf(t, p, q).income >= 0.0 ==>
      VerdictOf(p, FactsOf(t, p, q.(amount := less))).Severity() <= VerdictOf(p, FactsOf(t, p, q)).Severity()
    ensures Refusal(t, q).None? && VerdictOf(p, FactsOf(t, p, q)) == Eligible ==>
      VerdictOf(p, FactsOf(t, p, q.(amount := less))) == Eligible
    ensures Refusal(t, q).None? && FactsOf(t, p, q).income >= 0.0
            && VerdictOf(p, FactsOf(t, p, q.(amount := less))) == Ineligible ==>
      VerdictOf(p, FactsOf(t, p, q)) == Ineligible
  {
    if Refusal(t, q).None? {
      var f, g := FactsOf(t, p, q.(amount := less)), FactsOf(t, p, q);
      assert f == g.(amount := less);
      hide Applies, Refusal, FactsOf, VerdictOf;
      if g.income >= 0.0 {
        VerdictMonotoneInAmount(p, f, g, VerdictOf(p, f), VerdictOf(p, g));
        hide IsVerdict;
      } else {
        assert Lacks(g, NoIncome);
      }
    }
  }

  /** What an accepted request must be. */
  lemma AcceptedIff(t: Tables, q: Request)
    ensures Refusal(t, q).None? <==>
      && q.amount >= 0.0
      && (q.term.Some? ==> q.term.value >= 1)
      && (q.loanType.Some? ==> q.loanType.value in ["consumer", "secured"])
      && (q.verifiedIncome.Some? ==> q.verifiedIncome.value > 0.0)
      && q.owner in t.customers.Keys + t.businesses.Keys
      && (q.collateral.Some? && q.collateral.value != "" ==>
            q.collateral.value in t.collaterals && t.collaterals[q.collateral.value].owner == q.owner)
  {
  }

  // ------------------------------------------------------------ the facts in the tables

  /** A further loan counts exactly when it is the owner's and active. */
  lemma {:induction false} PaymentsCount(loans: seq<Loan>, l: Loan, owner: string)
    ensures Payments([], owner) == 0.0
    ensures Payments(loans + [l], owner)
         == Payments(loans, owner) + (if l.owner == owner && l.active then l.payment else 0.0)
  {
    if loans == [] {
      assert [l][1..] == [];
    } else {
      assert (loans + [l])[1..] == loans[1..] + [l];
      PaymentsCount(loans[1..], l, owner);
    }
  }

  /** A loan is secured when the request says so, or says nothing and names a collateral. */
  predicate AsksSecured(q: Request) {
    q.loanType == Some("secured") || (q.loanType == None && q.collateral.Some? && q.collateral.value != "")
  }

  /** Where each fact of an accepted request comes from. */
  ghost predicate FactsRead(t: Tables, q: Request, f: Facts) {
    && f.amount == q.amount && f.secured == AsksSecured(q) && f.existing == Payments(t.loans, q.owner)
    && (if f.secured then Configured(t.settings, "rate_secured_annual", 0.08, f.rate)
        else Configured(t.settings, "rate_consumer_annual", 0.15, f.rate))
    && (match q.term
        case Some(n) => f.term == n
        case None =>
          if f.secured then exists v :: Configured(t.settings, "term_secured_months", 180.0, v) && WholePart(f.term, v)
          else exists v :: Configured(t.settings, "term_consumer_months", 60.0, v) && WholePart(f.term, v))
    && (match q.verifiedIncome
        case Some(v) => f.income == v
        case None =>
          if q.owner in t.customers then f.income == t.customers[q.owner]
          else q.owner in t.businesses && f.income * 12.0 == t.businesses[q.owner])
    && (if q.collateral.Some? && q.collateral.value != ""
        then q.collateral.value in t.collaterals && f.collateral == Some(t.collaterals[q.collateral.value])
             && t.collaterals[q.collateral.value].owner == q.owner
        else f.collateral == None)
    && (if q.owner in t.cic then f.cicGroup == Some(t.cic[q.owner]) else f.cicGroup == None)
  }

  /** An assessment is of the facts in the tables: the owner's active loans, its declared or verified income,
      its own collateral, and the rate and term of the kind of loan. */
  lemma FactsAreRead(t: Tables, q: Request)
    requires PolicyOf(NumbersOf(t.settings)).Sane() && Refusal(t, q).None?
    ensures FactsRead(t, q, FactsOf(t, PolicyOf(NumbersOf(t.settings)), q))
  {
    PolicyIsRead(t.settings);
    hide Configured, NumbersOf, GetOr, Truncated, WholePart, PolicyOf, Payments;
  }
}
