/**
 Runs of a state machine given by a partial next-state function: `next(s, l)` is None when the label
 `l` is not enabled in `s`.
 */
module Machines {
  import opened Wrappers

  ghost predicate IsRun<S, L>(next: (S, L) -> Option<S>, s: S, ls: seq<L>)
    decreases |ls|
  {
    ls == [] || (next(s, ls[0]).Some? && IsRun(next, next(s, ls[0]).value, ls[1..]))
  }

  /** The state a run ends in. */
  ghost function End<S, L>(next: (S, L) -> Option<S>, s: S, ls: seq<L>): S
    requires IsRun(next, s, ls)
    decreases |ls|
  {
    if ls == [] then s else End(next, next(s, ls[0]).value, ls[1..])
  }

  lemma StepsFirst<S, L>(next: (S, L) -> Option<S>, s: S, l: L, ls: seq<L>)
    requires next(s, l).Some? && IsRun(next, next(s, l).value, ls)
    ensures IsRun(next, s, [l] + ls) && End(next, s, [l] + ls) == End(next, next(s, l).value, ls)
  {
    assert ([l] + ls)[1..] == ls;
  }

  lemma {:induction false} RunsJoin<S, L>(next: (S, L) -> Option<S>, s: S, a: seq<L>, b: seq<L>)
    requires IsRun(next, s, a) && IsRun(next, End(next, s, a), b)
    ensures IsRun(next, s, a + b) && End(next, s, a + b) == End(next, End(next, s, a), b)
    decreases |a|
  {
    if a == [] {
      assert a + b == b;
    } else {
      RunsJoin(next, next(s, a[0]).value, a[1..], b);
      assert (a + b)[1..] == a[1..] + b;
    }
  }

  /** A run can be cut anywhere. */
  lemma {:induction false} RunSplits<S, L>(next: (S, L) -> Option<S>, s: S, ls: seq<L>, n: nat)
    requires IsRun(next, s, ls) && n <= |ls|
    ensures IsRun(next, s, ls[..n]) && IsRun(next, End(next, s, ls[..n]), ls[n..])
    ensures End(next, End(next, s, ls[..n]), ls[n..]) == End(next, s, ls)
    decreases |ls|
  {
    if n == 0 {
      assert ls[n..] == ls;
    } else {
      RunSplits(next, next(s, ls[0]).value, ls[1..], n - 1);
      assert ls[..n][1..] == ls[1..][..n - 1] && ls[1..][n - 1..] == ls[n..];
    }
  }

  /** The last step of a run. */
  lemma LastStep<S, L>(next: (S, L) -> Option<S>, s: S, ls: seq<L>)
    requires IsRun(next, s, ls) && ls != []
    ensures var n := |ls| - 1;
      && IsRun(next, s, ls[..n])
      && next(End(next, s, ls[..n]), ls[n]) == Some(End(next, s, ls))
  {
    var n := |ls| - 1;
    RunSplits(next, s, ls, n);
    assert ls[n..] == [ls[n]];
    assert [ls[n]][1..] == [];
  }

  /** The labels are a run from `s` to `t`. */
  ghost predicate Leads<S, L>(next: (S, L) -> Option<S>, s: S, ls: seq<L>, t: S) {
    IsRun(next, s, ls) && End(next, s, ls) == t
  }

  lemma Stays<S, L>(next: (S, L) -> Option<S>, s: S)
    ensures Leads(next, s, [], s)
  {
  }

  /** A run with one more step. */
  lemma LeadsOn<S, L>(next: (S, L) -> Option<S>, s: S, ls: seq<L>, t: S, l: L, u: S) returns (more: seq<L>)
    requires Leads(next, s, ls, t) && next(t, l) == Some(u)
    ensures more == ls + [l] && Leads(next, s, more, u)
  {
    more := ls + [l];
    StepsFirst(next, t, l, []);
    RunsJoin(next, s, ls, [l]);
  }

  lemma LeadsThrough<S, L>(next: (S, L) -> Option<S>, s: S, a: seq<L>, t: S, b: seq<L>, u: S) returns (more: seq<L>)
    requires Leads(next, s, a, t) && Leads(next, t, b, u)
    ensures more == a + b && Leads(next, s, more, u)
  {
    more := a + b;
    RunsJoin(next, s, a, b);
  }

  /** What one step keeps, every run keeps. */
  lemma {:induction false} InvariantHolds<S(!new), L(!new)>(
    next: (S, L) -> Option<S>, inv: S -> bool, s: S, ls: seq<L>)
    requires inv(s) && IsRun(next, s, ls)
    requires forall t, l :: inv(t) && next(t, l).Some? ==> inv(next(t, l).value)
    ensures inv(End(next, s, ls))
    decreases |ls|
  {
    if ls != [] {
      InvariantHolds(next, inv, next(s, ls[0]).value, ls[1..]);
    }
  }

  /** A measure that every step of a kind lowers bounds the runs made of such steps. */
  lemma {:induction false} RunIsBounded<S(!new), L(!new)>(
    next: (S, L) -> Option<S>, inv: S -> bool, kind: L -> bool, work: S -> nat, s: S, ls: seq<L>)
    requires inv(s) && IsRun(next, s, ls)
    requires forall t, l :: inv(t) && next(t, l).Some? ==> inv(next(t, l).value)
    requires forall t, l :: inv(t) && next(t, l).Some? && kind(l) ==> work(next(t, l).value) < work(t)
    requires forall i :: 0 <= i < |ls| ==> kind(ls[i])
    ensures |ls| + work(End(next, s, ls)) <= work(s)
    decreases |ls|
  {
    if ls != [] {
      assert kind(ls[0]);
      RunIsBounded(next, inv, kind, work, next(s, ls[0]).value, ls[1..]);
    }
  }

  /** When every state that is not final has an enabled step of a kind that lowers a measure, such
      steps alone lead to a final state. */
  lemma {:induction false} FinalIsReached<S(!new), L(!new)>(
    next: (S, L) -> Option<S>, inv: S -> bool, kind: L -> bool, work: S -> nat, final: S -> bool, s: S)
    returns (ls: seq<L>)
    requires inv(s)
    requires forall t, l :: inv(t) && next(t, l).Some? ==> inv(next(t, l).value)
    requires forall t, l :: inv(t) && next(t, l).Some? && kind(l) ==> work(next(t, l).value) < work(t)
    requires forall t :: inv(t) && !final(t) ==> exists l :: kind(l) && next(t, l).Some?
    ensures IsRun(next, s, ls) && (forall i :: 0 <= i < |ls| ==> kind(ls[i])) && final(End(next, s, ls))
    decreases work(s)
  {
    ls := [];
    if !final(s) {
      var l :| kind(l) && next(s, l).Some?;
      var rest := FinalIsReached(next, inv, kind, work, final, next(s, l).value);
      ls := [l] + rest;
      assert ls[1..] == rest;
    }
  }
}
