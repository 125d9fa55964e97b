/**
 The business-intent key of a gated call: `payload_hash` and `approval_idempotency_key` in
 backend/app/orch/gated.py. The hash is taken to be injective, so the canonical payload stands for it.
 */
module Payload {
  import opened Wrappers

  datatype Action = Disburse | OpsDisburse

  /** A double: a number, an infinity or NaN. Finite values are exact reals. */
  datatype Num = Finite(r: real) | PosInf | NegInf | NotANumber

  datatype Value = Null | Bool(b: bool) | Int(i: int) | Float(x: Num) | Text(s: string)

  type Args = map<string, Value>

  datatype Key = Key(conv: ConvId, action: Action, canon: Args)

  const NON_BIZ_FIELDS := {"ts", "timestamp", "note", "ghi_chu", "_meta"}

  function ActionName(a: Action): string {
    match a
    case Disburse => "disburse"
    case OpsDisburse => "ops_disburse"
  }

  /** Numbers are hashed as floats; booleans are not numbers. */
  function Normal(v: Value): Value {
    match v
    case Int(i) => Float(Finite(i as real))
    case _ => v
  }

  /** The business fields of a payload. */
  function Biz(args: Args): Args {
    map k | k in args && args[k] != Null && k !in NON_BIZ_FIELDS :: Normal(args[k])
  }

  /** `{"action": action, **biz}`: a business field named "action" replaces the action. */
  function Canon(action: Action, args: Args): Args {
    map["action" := Text(ActionName(action))] + Biz(args)
  }

  function KeyOf(conv: ConvId, action: Action, args: Args): Key {
    Key(conv, action, Canon(action, args))
  }

  /** What the key sees of one field. */
  function Seen(args: Args, k: string): Option<Value> {
    if k in args && args[k] != Null && k !in NON_BIZ_FIELDS then Some(Normal(args[k])) else None
  }

  /** The action field the hash sees: the argument of that name wins over the tool's own name. */
  function SeenAction(action: Action, args: Args): Value {
    match Seen(args, "action")
    case Some(v) => v
    case None => Text(ActionName(action))
  }

  lemma CanonAt(action: Action, args: Args, k: string)
    ensures k != "action" ==> (k in Canon(action, args) <==> Seen(args, k).Some?)
    ensures k != "action" && k in Canon(action, args) ==> Canon(action, args)[k] == Seen(args, k).value
    ensures "action" in Canon(action, args) && Canon(action, args)["action"] == SeenAction(action, args)
  {
  }

  /** Two calls have the same key exactly when they agree on conversation, action and every business
      field, a field named "action" counting as the action when it is left out. */
  lemma SameKeyIff(c1: ConvId, a1: Action, args1: Args, c2: ConvId, a2: Action, args2: Args)
    ensures KeyOf(c1, a1, args1) == KeyOf(c2, a2, args2) <==>
            && c1 == c2
            && a1 == a2
            && SeenAction(a1, args1) == SeenAction(a2, args2)
            && forall k :: k != "action" ==> Seen(args1, k) == Seen(args2, k)
  {
    var m1, m2 := Canon(a1, args1), Canon(a2, args2);
    CanonAt(a1, args1, "action");
    CanonAt(a2, args2, "action");
    if KeyOf(c1, a1, args1) == KeyOf(c2, a2, args2) {
      forall k | k != "action" ensures Seen(args1, k) == Seen(args2, k) {
        CanonAt(a1, args1, k);
        CanonAt(a2, args2, k);
      }
    }
    if SeenAction(a1, args1) == SeenAction(a2, args2) && forall k :: k != "action" ==> Seen(args1, k) == Seen(args2, k) {
      forall k ensures (k in m1 <==> k in m2) && (k in m1 ==> m1[k] == m2[k]) {
        CanonAt(a1, args1, k);
        CanonAt(a2, args2, k);
      }
      assert m1 == m2;
    }
  }

  /** The key is blind to bookkeeping fields, to nulls and to the spelling of whole numbers. */
  lemma KeyIgnoresNoise(conv: ConvId, action: Action, args: Args, k: string, v: Value)
    requires k in NON_BIZ_FIELDS || (k !in args && v == Null) || (k in args && args[k].Int? && v == Normal(args[k]))
    ensures KeyOf(conv, action, args[k := v]) == KeyOf(conv, action, args)
  {
    assert Biz(args[k := v]) == Biz(args);
  }

  /** Adding an argument named "action" goes unseen exactly when it is null or repeats the tool's name. */
  lemma ActionArgumentIsInvisible(conv: ConvId, action: Action, args: Args, v: Value)
    requires "action" !in args
    ensures KeyOf(conv, action, args["action" := v]) == KeyOf(conv, action, args) <==>
            v == Null || v == Text(if action == Disburse then "disburse" else "ops_disburse")
  {
    var more := args["action" := v];
    SameKeyIff(conv, action, more, conv, action, args);
    forall k | k != "action" ensures Seen(more, k) == Seen(args, k) {
    }
    assert SeenAction(action, args) == Text(ActionName(action));
  }
}
