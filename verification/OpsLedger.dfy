/**
 Disbursements of roles/operations/functions.py over serial histories: the gate check, the plan, the
 disbursement ledger and its numbering. A refusal of the bridge in backend/app/orch/ops_bridge.py aborts
 the transaction, so it changes nothing.
 */
module OpsLedger {
  import opened Wrappers
  import opened Machines
  import opened Payload

  datatype Application = Application(
    owner: string, amount: real, status: string, creditOk: bool, legalOk: bool, approval: string)

  datatype Step = Step(name: string, done: bool)

  datatype Disbursement = Disbursement(
    id: string, application: string, amount: real, beneficiary: string, executed: bool, receipt: string)

  datatype Blocker =
    | ApplicationRejected | CreditGate | LegalGate | ApprovalPending | ApprovalDenied
    | ProcedurePending(step: string) | AlreadyDisbursed(id: string) | AmountMismatch

  datatype Result =
    | InvalidParam | NotFound | Blocked(blockers: seq<Blocker>) | ConcurrentWrite
    | Paid(id: string, receipt: string)

  datatype NextAction = NothingLeft | CloseFile | AwaitDepartments | AwaitSignature | FinishSteps(names: seq<string>) | Ready

  datatype Tables = Tables(
    applications: map<string, Application>, steps: map<string, seq<Step>>, ledger: seq<Disbursement>)

  // ------------------------------------------------------------ numbering

  function Digits(n: nat): string {
    if n < 10 then [('0' as int + n) as char] else Digits(n / 10) + [('0' as int + n % 10) as char]
  }

  /** The number that decimal text stands for. */
  function ValueOf(s: string): int {
    if s == "" then 0 else 10 * ValueOf(s[..|s| - 1]) + (s[|s| - 1] as int - '0' as int)
  }

  lemma {:induction false} DigitsHaveValue(n: nat)
    ensures ValueOf(Digits(n)) == n
  {
    if n < 10 {
      assert Digits(n)[..0] == "";
    } else {
      DigitsHaveValue(n / 10);
      assert Digits(n)[..|Digits(n)| - 1] == Digits(n / 10);
    }
  }

  lemma {:induction false} ZeroInFront(s: string)
    ensures ValueOf("0" + s) == ValueOf(s)
  {
    if s != "" {
      ZeroInFront(s[..|s| - 1]);
      assert ("0" + s)[..|s|] == "0" + s[..|s| - 1];
    } else {
      assert "0" + s == "0" && "0"[..0] == "";
    }
  }

  /** `:02d`. */
  function TwoDigits(n: nat): string {
    if |Digits(n)| < 2 then "0" + Digits(n) else Digits(n)
  }

  /** The id and the receipt code of the n-th disbursement. */
  function IdOf(n: nat): string {
    "DSB" + TwoDigits(n)
  }

  function ReceiptOf(n: nat): string {
    "RC-2026-" + Digits(100000 + n)
  }

  lemma NumbersDiffer(m: nat, n: nat)
    requires m != n
    ensures IdOf(m) != IdOf(n) && ReceiptOf(m) != ReceiptOf(n)
  {
    hide Digits, ValueOf;
    TwoDigitsHaveValue(m);
    TwoDigitsHaveValue(n);
    DigitsHaveValue(100000 + m);
    DigitsHaveValue(100000 + n);
    assert IdOf(m)[3..] == TwoDigits(m) && IdOf(n)[3..] == TwoDigits(n);
    assert ReceiptOf(m)[8..] == Digits(100000 + m) && ReceiptOf(n)[8..] == Digits(100000 + n);
  }

  lemma {:induction false} DigitsAreDecimal(n: nat)
    ensures var s := Digits(n);
      && s != "" && (forall i :: 0 <= i < |s| ==> '0' <= s[i] <= '9') && (|s| > 1 ==> s[0] != '0')
  {
    if n >= 10 {
      DigitsAreDecimal(n / 10);
      DigitsHaveValue(n / 10);
    }
  }

  /** The text of a number: the decimal digits of `n`, at least two of them and no needless zero in front. */
  lemma NumbersRead(n: nat)
    ensures var id := IdOf(n);
      && |id| >= 5 && id[..3] == "DSB" && ValueOf(id[3..]) == n
      && (forall i :: 3 <= i < |id| ==> '0' <= id[i] <= '9') && (|id| > 5 ==> id[3] != '0')
    ensures var code := ReceiptOf(n);
      && |code| > 8 && code[..8] == "RC-2026-" && ValueOf(code[8..]) == 100000 + n
      && (forall i :: 8 <= i < |code| ==> '0' <= code[i] <= '9') && code[8] != '0'
  {
    TwoDigitsHaveValue(n);
    DigitsHaveValue(100000 + n);
    DigitsAreDecimal(n);
    DigitsAreDecimal(100000 + n);
    assert |Digits(100000 + n)| > 1;
    hide Digits, ValueOf;
    assert IdOf(n)[3..] == TwoDigits(n) && ReceiptOf(n)[8..] == Digits(100000 + n);
  }

  lemma TwoDigitsHaveValue(n: nat)
    ensures ValueOf(TwoDigits(n)) == n
  {
    hide Digits, ValueOf;
    DigitsHaveValue(n);
    ZeroInFront(Digits(n));
  }

  // ------------------------------------------------------------ the gates

  function StepsOf(t: Tables, app: string): seq<Step> {
    if app in t.steps then t.steps[app] else []
  }

  /** Index of the executed disbursement of an application, or the length when there is none. */
  function FirstExecuted(ledger: seq<Disbursement>, app: string): (i: nat)
    ensures i <= |ledger|
    ensures i < |ledger| ==> ledger[i].application == app && ledger[i].executed
    ensures forall j :: 0 <= j < i ==> !(ledger[j].application == app && ledger[j].executed)
  {
    if ledger == [] || (ledger[0].application == app && ledger[0].executed) then 0
    else 1 + FirstExecuted(ledger[1..], app)
  }

  predicate Executed(ledger: seq<Disbursement>, app: string) {
    FirstExecuted(ledger, app) < |ledger|
  }

  predicate AllDone(steps: seq<Step>) {
    forall i :: 0 <= i < |steps| ==> steps[i].done
  }

  /** Everything a disbursement needs of an application. */
  predicate GatesHold(a: Application, steps: seq<Step>) {
    a.status != "rejected" && a.creditOk && a.legalOk && a.approval != "pending" && a.approval != "denied" && AllDone(steps)
  }

  function Pending(steps: seq<Step>): seq<string> {
    if steps == [] then []
    else Pending(steps[..|steps| - 1]) + (if steps[|steps| - 1].done then [] else [steps[|steps| - 1].name])
  }

  function StepBlockers(names: seq<string>): seq<Blocker> {
    seq(|names|, i requires 0 <= i < |names| => ProcedurePending(names[i]))
  }

  function GateBlockersOf(a: Application): seq<Blocker> {
    (if a.status == "rejected" then [ApplicationRejected] else [])
    + (if a.creditOk then [] else [CreditGate])
    + (if a.legalOk then [] else [LegalGate])
    + (if a.approval == "pending" then [ApprovalPending] else if a.approval == "denied" then [ApprovalDenied] else [])
  }

  function GateBlockers(t: Tables, app: string): seq<Blocker>
    requires app in t.applications
  {
    var i := FirstExecuted(t.ledger, app);
    var open := GateBlockersOf(t.applications[app]) + StepBlockers(Pending(StepsOf(t, app)));
    if i < |t.ledger| then open + [AlreadyDisbursed(t.ledger[i].id)] else open
  }

  lemma {:induction false} PendingIff(steps: seq<Step>)
    ensures Pending(steps) == [] <==> AllDone(steps)
  {
    if steps != [] {
      PendingIff(steps[..|steps| - 1]);
    }
  }

  /** Nothing blocks exactly when every gate holds and nothing was paid yet. */
  lemma NoBlockersIff(t: Tables, app: string)
    requires app in t.applications
    ensures GateBlockers(t, app) == [] <==>
      GatesHold(t.applications[app], StepsOf(t, app)) && !Executed(t.ledger, app)
  {
    PendingIff(StepsOf(t, app));
    hide Pending, AllDone;
    assert |StepBlockers(Pending(StepsOf(t, app)))| == |Pending(StepsOf(t, app))|;
    hide StepBlockers;
  }

  /** When each blocker applies. */
  predicate Blocks(t: Tables, app: string, b: Blocker)
    requires app in t.applications
  {
    var a := t.applications[app];
    match b
    case ApplicationRejected => a.status == "rejected"
    case CreditGate => !a.creditOk
    case LegalGate => !a.legalOk
    case ApprovalPending => a.approval == "pending"
    case ApprovalDenied => a.approval == "denied"
    case ProcedurePending(name) => app in t.steps && Step(name, false) in t.steps[app]
    case AlreadyDisbursed(id) =>
      exists i :: 0 <= i < |t.ledger| && t.ledger[i].application == app && t.ledger[i].executed && t.ledger[i].id == id
                  && forall j :: 0 <= j < i ==> !(t.ledger[j].application == app && t.ledger[j].executed)
    case AmountMismatch => false
  }

  /** The open steps by name, in the order of the steps. */
  lemma {:induction false} PendingHolds(steps: seq<Step>)
    ensures forall name :: name in Pending(steps) <==> Step(name, false) in steps
  {
    if steps != [] {
      PendingHolds(steps[..|steps| - 1]);
      assert steps == steps[..|steps| - 1] + [steps[|steps| - 1]];
    }
  }

  lemma StepBlockersHold(names: seq<string>, b: Blocker)
    ensures b in StepBlockers(names) <==> b.ProcedurePending? && b.step in names
  {
    if b.ProcedurePending? && b.step in names {
      var i :| 0 <= i < |names| && names[i] == b.step;
      assert StepBlockers(names)[i] == b;
    }
  }

  /** The blockers are exactly those that apply. */
  lemma BlockersIff(t: Tables, app: string, b: Blocker)
    requires app in t.applications
    ensures b in GateBlockers(t, app) <==> Blocks(t, app, b)
  {
    PendingHolds(StepsOf(t, app));
    StepBlockersHold(Pending(StepsOf(t, app)), b);
    var i := FirstExecuted(t.ledger, app);
    if b.AlreadyDisbursed? && Blocks(t, app, b) {
      var j :| 0 <= j < |t.ledger| && t.ledger[j].application == app && t.ledger[j].executed && t.ledger[j].id == b.id
               && forall k :: 0 <= k < j ==> !(t.ledger[k].application == app && t.ledger[k].executed);
      assert j == i;
    }
    hide Pending, StepBlockers, FirstExecuted;
  }

  class OpsStore {
    var applications: map<string, Application>
    var steps: map<string, seq<Step>>
    var ledger: seq<Disbursement>

    ghost function View(): Tables
      reads this
    {
      Tables(applications, steps, ledger)
    }

    constructor ()
      ensures View() == Tables(map[], map[], [])
    {
      applications, steps, ledger := map[], map[], [];
    }

    /** `_gate_check`. */
    method GateCheck(app: string) returns (blockers: seq<Blocker>, executed: bool)
      requires app in applications
      ensures blockers == GateBlockers(View(), app) && executed == Executed(ledger, app)
    {
      blockers := CheckGates(applications[app]);
      hide GateBlockersOf;
      ghost var before := blockers;
      var todo := if app in steps then steps[app] else [];
      for n := 0 to |todo|
        invariant blockers == before + StepBlockers(Pending(todo[..n]))
      {
        assert todo[..n + 1][..n] == todo[..n];
        if !todo[n].done {
          blockers := blockers + [ProcedurePending(todo[n].name)];
          assert StepBlockers(Pending(todo[..n + 1])) == StepBlockers(Pending(todo[..n])) + [ProcedurePending(todo[n].name)];
        } else {
          assert Pending(todo[..n + 1]) == Pending(todo[..n]);
        }
      }
      assert todo[..|todo|] == todo;
      hide Pending, StepBlockers;
      var i := FirstExecuted(ledger, app);
      executed := Executed(ledger, app);
      if i < |ledger| {
        blockers := blockers + [AlreadyDisbursed(ledger[i].id)];
      }
    }

    /** `ops_plan`. */
    method OpsPlan(app: string) returns (next: Option<NextAction>)
      ensures next == PlanOf(View(), app)
    {
      if app !in applications {
        return None;
      }
      var a := applications[app];
      var blockers, executed := GateCheck(app);
      var todo := if app in steps then steps[app] else [];
      if executed {
        return Some(NothingLeft);
      } else if a.status == "rejected" || a.approval == "denied" {
        return Some(CloseFile);
      } else if !a.legalOk || !a.creditOk {
        return Some(AwaitDepartments);
      } else if a.approval == "pending" {
        return Some(AwaitSignature);
      } else if Pending(todo) != [] {
        return Some(FinishSteps(Pending(todo)));
      } else {
        return Some(Ready);
      }
    }

    /** `ops_disburse` under the bridge. */
    method OpsDisburse(app: string, amount: Num, beneficiary: string) returns (r: Result)
      modifies `applications, `ledger
      ensures (View(), r) == Pay(old(View()), app, amount, beneficiary)
    {
      if !amount.Finite? || amount.r <= 0.0 {
        return InvalidParam;
      }
      if app !in applications {
        return NotFound;
      }
      var blockers, executed := GateCheck(app);
      if amount.r != applications[app].amount {
        blockers := blockers + [AmountMismatch];
      }
      hide GateBlockers;
      if blockers != [] {
        return Blocked(blockers);
      }
      var n := |ledger|;
      var id, receipt := IdOf(n + 1), ReceiptOf(n + 1);
      if IdTaken(ledger, id) {
        return ConcurrentWrite;
      }
      ledger := ledger + [Disbursement(id, app, amount.r, beneficiary, true, receipt)];
      applications := applications[app := applications[app].(status := "disbursed")];
      return Paid(id, receipt);
    }
  }

  method CheckGates(a: Application) returns (blockers: seq<Blocker>)
    ensures blockers == GateBlockersOf(a)
  {
    blockers := [];
    if a.status == "rejected" {
      blockers := blockers + [ApplicationRejected];
    }
    if !a.creditOk {
      blockers := blockers + [CreditGate];
    }
    if !a.legalOk {
      blockers := blockers + [LegalGate];
    }
    if a.approval == "pending" {
      blockers := blockers + [ApprovalPending];
    } else if a.approval == "denied" {
      blockers := blockers + [ApprovalDenied];
    }
  }

  function PlanOf(t: Tables, app: string): Option<NextAction> {
    if app !in t.applications then None
    else
      var a := t.applications[app];
      Some(if Executed(t.ledger, app) then NothingLeft
           else if a.status == "rejected" || a.approval == "denied" then CloseFile
           else if !a.legalOk || !a.creditOk then AwaitDepartments
           else if a.approval == "pending" then AwaitSignature
           else if Pending(StepsOf(t, app)) != [] then FinishSteps(Pending(StepsOf(t, app)))
           else Ready)
  }

  predicate IdTaken(ledger: seq<Disbursement>, id: string) {
    exists i :: 0 <= i < |ledger| && ledger[i].id == id
  }

  /** One call as one transaction. */
  function Pay(t: Tables, app: string, amount: Num, beneficiary: string): (Tables, Result) {
    if !amount.Finite? || amount.r <= 0.0 then (t, InvalidParam)
    else if app !in t.applications then (t, NotFound)
    else
      var gates := GateBlockers(t, app);
      var blockers := if amount.r != t.applications[app].amount then gates + [AmountMismatch] else gates;
      var n := |t.ledger| + 1;
      if blockers != [] then (t, Blocked(blockers))
      else if IdTaken(t.ledger, IdOf(n)) then (t, ConcurrentWrite)
      else
        (t.(ledger := t.ledger + [Disbursement(IdOf(n), app, amount.r, beneficiary, true, ReceiptOf(n))],
            applications := t.applications[app := t.applications[app].(status := "disbursed")]),
         Paid(IdOf(n), ReceiptOf(n)))
  }

  /** What a payment needs and does. */
  lemma PaidIff(t: Tables, app: string, amount: Num, beneficiary: string)
    ensures var (u, r) := Pay(t, app, amount, beneficiary);
      && (r.Paid? <==>
            && amount.Finite? && amount.r > 0.0 && app in t.applications && amount.r == t.applications[app].amount
            && GatesHold(t.applications[app], StepsOf(t, app)) && !Executed(t.ledger, app)
            && !IdTaken(t.ledger, IdOf(|t.ledger| + 1)))
      && (!r.Paid? ==> u == t)
      && (r.Paid? ==>
            && u.applications.Keys == t.applications.Keys && u.applications[app].status == "disbursed"
            && u.steps == t.steps && |u.ledger| == |t.ledger| + 1 && t.ledger <= u.ledger
            && u.ledger[|t.ledger|].id == r.id && u.ledger[|t.ledger|].receipt == r.receipt
            && u.ledger[|t.ledger|].beneficiary == beneficiary && u.ledger[|t.ledger|].executed)
  {
    hide GatesHold, Executed, GateBlockers, IdTaken, IdOf;
    if app in t.applications {
      NoBlockersIff(t, app);
    }
  }

  /** Why a payment is refused: the refusals in their order, and the blockers of a blocked one. */
  lemma RefusedIff(t: Tables, app: string, amount: Num, beneficiary: string)
    ensures var r := Pay(t, app, amount, beneficiary).1;
      && (r.InvalidParam? <==> !amount.Finite? || amount.r <= 0.0)
      && (r.NotFound? <==> amount.Finite? && amount.r > 0.0 && app !in t.applications)
      && (r.Blocked? ==> app in t.applications && amount.Finite?
                         && forall b :: b in r.blockers <==>
                              Blocks(t, app, b) || (b == AmountMismatch && amount.r != t.applications[app].amount))
  {
    if app in t.applications {
      forall b ensures b in GateBlockers(t, app) <==> Blocks(t, app, b) {
        BlockersIff(t, app, b);
      }
    }
    hide GateBlockers, Blocks;
  }

  /** What the plan advises: the most urgent thing that is true of the application. */
  lemma PlanIff(t: Tables, app: string)
    requires app in t.applications
    ensures var a, next := t.applications[app], PlanOf(t, app).value;
      var paid := exists i :: 0 <= i < |t.ledger| && t.ledger[i].application == app && t.ledger[i].executed;
      var closed := a.status == "rejected" || a.approval == "denied";
      && (next == NothingLeft <==> paid)
      && (next == CloseFile <==> !paid && closed)
      && (next == AwaitDepartments <==> !paid && !closed && !(a.creditOk && a.legalOk))
      && (next == AwaitSignature <==> !paid && !closed && a.creditOk && a.legalOk && a.approval == "pending")
      && (next.FinishSteps? ==> next.names != []
                                && forall name :: name in next.names <==> Step(name, false) in StepsOf(t, app))
      && (next.FinishSteps? || next.Ready? <==>
            !paid && !closed && a.creditOk && a.legalOk && a.approval != "pending")
  {
    PendingHolds(StepsOf(t, app));
    hide Pending;
  }

  // ------------------------------------------------------------ histories

  /** A call, or any change other departments make to an application and its steps. */
  datatype Label = Call(app: string, amount: Num, beneficiary: string) | Edit(app: string, a: Application, steps: seq<Step>)

  function Next(t: Tables, l: Label): Option<Tables> {
    match l
    case Call(app, amount, beneficiary) => Some(Pay(t, app, amount, beneficiary).0)
    case Edit(app, a, steps) => Some(t.(applications := t.applications[app := a], steps := t.steps[app := steps]))
  }

  /** The ledger counts its rows. */
  ghost predicate Numbered(ledger: seq<Disbursement>) {
    forall i :: 0 <= i < |ledger| ==> ledger[i].id == IdOf(i + 1) && ledger[i].receipt == ReceiptOf(i + 1)
  }

  ghost predicate PaidOnce(ledger: seq<Disbursement>) {
    forall i, j :: 0 <= i < j < |ledger| && ledger[i].executed && ledger[j].executed
                   ==> ledger[i].application != ledger[j].application
  }

  ghost predicate Inv(t: Tables) {
    Numbered(t.ledger) && PaidOnce(t.ledger)
  }

  lemma NotExecuted(ledger: seq<Disbursement>, app: string)
    requires !Executed(ledger, app)
    ensures forall i :: 0 <= i < |ledger| && ledger[i].executed ==> ledger[i].application != app
  {
  }

  lemma StepKeeps(t: Tables, l: Label)
    requires Inv(t) && Next(t, l).Some?
    ensures Inv(Next(t, l).value)
  {
    hide IdOf, ReceiptOf, GateBlockers, GatesHold, IdTaken, Executed;
    if l.Call? {
      PaidIff(t, l.app, l.amount, l.beneficiary);
      if Pay(t, l.app, l.amount, l.beneficiary).1.Paid? {
        NotExecuted(t.ledger, l.app);
      }
    }
  }

  /** Over every serial history from a consecutively numbered ledger, ids and receipt codes are pairwise
      distinct and each application has at most one executed disbursement. */
  lemma LedgerIsSound(t: Tables, ls: seq<Label>, i: nat, j: nat)
    requires Inv(t) && IsRun(Next, t, ls)
    requires i < j < |End(Next, t, ls).ledger|
    ensures var ledger := End(Next, t, ls).ledger;
      && ledger[i].id != ledger[j].id && ledger[i].receipt != ledger[j].receipt
      && (ledger[i].executed && ledger[j].executed ==> ledger[i].application != ledger[j].application)
  {
    hide Next;
    forall u, l | Inv(u) && Next(u, l).Some? ensures Inv(Next(u, l).value) {
      StepKeeps(u, l);
    }
    InvariantHolds(Next, Inv, t, ls);
    NumbersDiffer(i + 1, j + 1);
    hide IdOf, ReceiptOf;
  }

  /** Row `i` of the final ledger was made by the `n`-th step of the history, for the amount the
      application had then, when every gate held and it had not been paid. */
  ghost predicate MadeAt(t: Tables, ls: seq<Label>, n: nat, i: nat)
    requires IsRun(Next, t, ls) && i < |End(Next, t, ls).ledger|
  {
    && n < |ls| && IsRun(Next, t, ls[..n])
    && var u := End(Next, t, ls[..n]); var l := ls[n];
       && l.Call? && |u.ledger| == i
       && l.app in u.applications && GatesHold(u.applications[l.app], StepsOf(u, l.app)) && !Executed(u.ledger, l.app)
       && End(Next, t, ls).ledger[i]
          == Disbursement(IdOf(i + 1), l.app, u.applications[l.app].amount, l.beneficiary, true, ReceiptOf(i + 1))
  }

  lemma {:induction false} LedgerGrows(t: Tables, ls: seq<Label>)
    requires IsRun(Next, t, ls)
    ensures t.ledger <= End(Next, t, ls).ledger
    decreases |ls|
  {
    hide IdOf, ReceiptOf, GateBlockers, IdTaken;
    if ls != [] {
      LedgerGrows(Next(t, ls[0]).value, ls[1..]);
    }
  }

  /** Every row that a history adds, from the first on, was made for the application's own amount while
      every gate held. */
  lemma {:induction false} NewRowsAreProper(t: Tables, ls: seq<Label>, i: nat) returns (n: nat)
    requires IsRun(Next, t, ls) && |t.ledger| <= i < |End(Next, t, ls).ledger|
    ensures MadeAt(t, ls, n, i)
    decreases |ls|
  {
    hide Next, MadeAt;
    var u := Next(t, ls[0]).value;
    if i < |u.ledger| {
      n := 0;
      LedgerGrows(u, ls[1..]);
      FirstStepMade(t, ls, i);
    } else {
      var m := NewRowsAreProper(u, ls[1..], i);
      n := m + 1;
      LaterStepMade(t, ls, m, i);
    }
  }

  lemma FirstStepMade(t: Tables, ls: seq<Label>, i: nat)
    requires ls != [] && IsRun(Next, t, ls) && |t.ledger| <= i < |Next(t, ls[0]).value.ledger|
    requires Next(t, ls[0]).value.ledger <= End(Next, t, ls).ledger
    ensures MadeAt(t, ls, 0, i)
  {
    hide IdOf, ReceiptOf, GateBlockers, IdTaken, GatesHold, Executed;
    var l := ls[0];
    assert ls[..0] == [];
    if l.Call? {
      PaidIff(t, l.app, l.amount, l.beneficiary);
    }
  }

  lemma LaterStepMade(t: Tables, ls: seq<Label>, n: nat, i: nat)
    requires ls != [] && IsRun(Next, t, ls) && i < |End(Next, t, ls).ledger|
    requires MadeAt(Next(t, ls[0]).value, ls[1..], n, i)
    ensures MadeAt(t, ls, n + 1, i)
  {
    hide Next, GatesHold, Executed, IdOf, ReceiptOf;
    assert ls[..n + 1] == [ls[0]] + ls[1..][..n];
    StepsFirst(Next, t, ls[0], ls[1..][..n]);
  }

  lemma NextIdIsFree(ledger: seq<Disbursement>)
    requires Numbered(ledger)
    ensures !IdTaken(ledger, IdOf(|ledger| + 1))
  {
    hide IdOf;
    forall i | 0 <= i < |ledger| ensures ledger[i].id != IdOf(|ledger| + 1) {
      NumbersDiffer(i + 1, |ledger| + 1);
    }
  }

  /** The plan says ready exactly when disbursing the application's own positive amount would succeed. */
  lemma ReadyIff(t: Tables, app: string, beneficiary: string)
    requires Numbered(t.ledger) && app in t.applications && t.applications[app].amount > 0.0
    ensures PlanOf(t, app) == Some(Ready) <==>
      Pay(t, app, Finite(t.applications[app].amount), beneficiary).1.Paid?
  {
    PaidIff(t, app, Finite(t.applications[app].amount), beneficiary);
    NextIdIsFree(t.ledger);
    PendingIff(StepsOf(t, app));
    hide Pay, IdOf, IdTaken, Pending, AllDone, Executed;
  }
}
