/**
 The order of a room: the queue holds events in the order in which calls queued them, release wakes the
 earliest one that is still wanted, and the report kept for a role is the one queued last.
 */
module RoomOrder {
  import opened Wrappers
  import opened Machines
  import opened Room
  import opened RoomMachine

  /** The places are places of `queued`, in ascending order. */
  predicate Ascending(queued: seq<Event>, places: seq<nat>) {
    && (forall i :: 0 <= i < |places| ==> places[i] < |queued|)
    && forall i, j :: 0 <= i < j < |places| ==> places[i] < places[j]
  }

  /** The events of `q` are those that were queued at these places. */
  predicate Placed(q: seq<Event>, queued: seq<Event>, places: seq<nat>) {
    && Ascending(queued, places)
    && |places| == |q|
    && forall i :: 0 <= i < |q| ==> queued[places[i]] == q[i]
  }

  predicate ReportAt(queued: seq<Event>, x: nat) {
    x < |queued| && queued[x].IsDone()
  }

  /** No report of its role was queued after this one. */
  predicate LastReport(queued: seq<Event>, x: nat) {
    ReportAt(queued, x) && forall y: nat :: x < y < |queued| && ReportAt(queued, y) ==> queued[y].role != queued[x].role
  }

  /** What a release still wants: anything but a report that a later one of its role supersedes. */
  predicate Wanted(queued: seq<Event>, x: nat) {
    x < |queued| && (ReportAt(queued, x) ==> LastReport(queued, x))
  }

  /** The last report of the role of this one is among the places. */
  predicate Covered(queued: seq<Event>, places: seq<nat>, x: nat) {
    ReportAt(queued, x) ==>
      exists y :: y in places && x <= y && LastReport(queued, y) && queued[y].role == queued[x].role
  }

  /** Whatever role has a report in the queue has its last report there. */
  predicate HoldsLast(queued: seq<Event>, places: seq<nat>) {
    forall x :: x in places ==> Covered(queued, places, x)
  }

  // ------------------------------------------------------------ queueing

  lemma AppendPlaced(q: seq<Event>, queued: seq<Event>, places: seq<nat>, e: Event)
    requires Placed(q, queued, places)
    ensures Placed(q + [e], queued + [e], places + [|queued|])
  {
  }

  lemma AppendHoldsLast(queued: seq<Event>, places: seq<nat>, e: Event)
    requires Ascending(queued, places) && HoldsLast(queued, places)
    ensures HoldsLast(queued + [e], places + [|queued|])
  {
    var h, ps := queued + [e], places + [|queued|];
    forall x | x in ps ensures Covered(h, ps, x) {
      assert |queued| in ps;
      if ReportAt(h, x) && e.IsDone() && e.role == h[x].role {
        NewIsLast(queued, e);
      } else if ReportAt(h, x) {
        assert Covered(queued, places, x);
        OldStaysCovered(queued, places, e, x);
      }
    }
  }

  lemma NewIsLast(queued: seq<Event>, e: Event)
    ensures e.IsDone() ==> LastReport(queued + [e], |queued|)
  {
  }

  lemma OldStaysCovered(queued: seq<Event>, places: seq<nat>, e: Event, x: nat)
    requires x < |queued| && Covered(queued, places, x) && !(e.IsDone() && e.role == queued[x].role)
    ensures Covered(queued + [e], places + [|queued|], x)
  {
    if ReportAt(queued, x) {
      var y :| y in places && x <= y && LastReport(queued, y) && queued[y].role == queued[x].role;
      assert LastReport(queued + [e], y) && y in places + [|queued|];
    }
  }

  lemma DropPlaced(q: seq<Event>, queued: seq<Event>, places: seq<nat>, n: nat)
    requires Placed(q, queued, places) && n < |q|
    ensures Placed(q[..n] + q[n + 1..], queued, places[..n] + places[n + 1..])
  {
    var r, ps := q[..n] + q[n + 1..], places[..n] + places[n + 1..];
    assert forall i :: 0 <= i < |r| ==>
      r[i] == (if i < n then q[i] else q[i + 1]) && ps[i] == (if i < n then places[i] else places[i + 1]);
  }

  /** Dropping the first report leaves the last ones. */
  lemma DropHoldsLast(q: seq<Event>, queued: seq<Event>, places: seq<nat>, n: nat)
    requires Placed(q, queued, places) && n < |q| && n == FirstDone(q) && HoldsLast(queued, places)
    ensures HoldsLast(queued, places[..n] + places[n + 1..])
  {
    var ps := places[..n] + places[n + 1..];
    FirstDoneIsFirst(q);
    hide FirstDone;
    forall x | x in ps ensures Covered(queued, ps, x) {
      var i :| 0 <= i < |places| && places[i] == x && i != n;
      assert Covered(queued, places, x);
      hide HoldsLast;
      if ReportAt(queued, x) {
        assert q[i].IsDone() && places[n] < x;
        DropCovered(queued, places, n, x);
      }
    }
  }

  lemma DropCovered(queued: seq<Event>, places: seq<nat>, n: nat, x: nat)
    requires n < |places| && places[n] < x && Covered(queued, places, x)
    ensures Covered(queued, places[..n] + places[n + 1..], x)
  {
    if ReportAt(queued, x) {
      var y :| y in places && x <= y && LastReport(queued, y) && queued[y].role == queued[x].role;
      hide LastReport;
      assert places == places[..n] + [places[n]] + places[n + 1..];
      assert y in places[..n] + places[n + 1..];
    }
  }

  lemma {:induction false} FirstDoneIsFirst(q: seq<Event>)
    ensures forall i :: 0 <= i < FirstDone(q) ==> !q[i].IsDone()
  {
    if q != [] && !q[0].IsDone() {
      FirstDoneIsFirst(q[1..]);
      assert forall i :: 0 < i < |q| ==> q[i] == q[1..][i - 1];
    }
  }

  /** The overflow loop. */
  lemma {:induction false} TrimOrdered(q: seq<Event>, queued: seq<Event>, places: seq<nat>) returns (ps: seq<nat>)
    requires Placed(q, queued, places) && HoldsLast(queued, places)
    ensures Placed(Trim(q), queued, ps) && HoldsLast(queued, ps)
    decreases |q|
  {
    var n := FirstDone(q);
    if |q| <= MAX_QUEUE || n == |q| {
      ps := places;
    } else {
      DropPlaced(q, queued, places, n);
      DropHoldsLast(q, queued, places, n);
      hide HoldsLast, Ascending;
      ps := TrimOrdered(q[..n] + q[n + 1..], queued, places[..n] + places[n + 1..]);
    }
  }

  // ------------------------------------------------------------ release

  /** Deduplication keeps exactly the places that are still wanted. */
  lemma {:induction false} DedupOrdered(q: seq<Event>, queued: seq<Event>, places: seq<nat>) returns (ps: seq<nat>)
    requires Placed(q, queued, places) && HoldsLast(queued, places)
    ensures Placed(DedupLast(q), queued, ps)
    ensures forall x :: x in ps <==> x in places && Wanted(queued, x)
  {
    if q == [] {
      ps := [];
    } else {
      TailPlaced(q, queued, places);
      ps := DedupOrdered(q[1..], queued, places[1..]);
      FrontWantedIff(q, queued, places);
      assert forall x :: x in places <==> x == places[0] || x in places[1..];
      if Wanted(queued, places[0]) {
        assert forall i :: 0 <= i < |ps| ==> ps[i] in places[1..];
        FrontPlaced(q[0], DedupLast(q[1..]), queued, places, ps);
        ps := [places[0]] + ps;
      }
    }
  }

  lemma TailPlaced(q: seq<Event>, queued: seq<Event>, places: seq<nat>)
    requires q != [] && Placed(q, queued, places) && HoldsLast(queued, places)
    ensures Placed(q[1..], queued, places[1..]) && HoldsLast(queued, places[1..])
  {
    forall x | x in places[1..] ensures Covered(queued, places[1..], x) {
      assert Covered(queued, places, x);
      if ReportAt(queued, x) {
        var y :| y in places && x <= y && LastReport(queued, y) && queued[y].role == queued[x].role;
        assert y in places[1..];
      }
    }
  }

  lemma FrontPlaced(e: Event, d: seq<Event>, queued: seq<Event>, places: seq<nat>, ps: seq<nat>)
    requires Placed(d, queued, ps) && Ascending(queued, places) && places != [] && queued[places[0]] == e
    requires forall i :: 0 <= i < |ps| ==> ps[i] in places[1..]
    ensures Placed([e] + d, queued, [places[0]] + ps)
  {
  }

  /** The front of the queue is still wanted exactly when no later report of its role is queued behind it. */
  lemma FrontWantedIff(q: seq<Event>, queued: seq<Event>, places: seq<nat>)
    requires q != [] && Placed(q, queued, places) && HoldsLast(queued, places)
    ensures Wanted(queued, places[0]) <==> !(q[0].IsDone() && HasDone(q[1..], q[0].role))
  {
    var x := places[0];
    assert Covered(queued, places, x) && queued[x] == q[0];
    hide HoldsLast;
    if q[0].IsDone() {
      var y :| y in places && x <= y && LastReport(queued, y) && queued[y].role == queued[x].role;
      var j :| 0 <= j < |places| && places[j] == y;
      if j > 0 {
        assert q[1..][j - 1] == queued[y];
        assert HasDone(q[1..], q[0].role) && !LastReport(queued, x);
      } else {
        LastIsLast(q, queued, places);
      }
    }
  }

  lemma LastIsLast(q: seq<Event>, queued: seq<Event>, places: seq<nat>)
    requires q != [] && Placed(q, queued, places) && LastReport(queued, places[0])
    ensures !HasDone(q[1..], q[0].role)
  {
    forall i | 0 <= i < |q[1..]| && q[1..][i].IsDone() ensures q[1..][i].role != q[0].role {
      assert q[1..][i] == q[i + 1] && ReportAt(queued, places[i + 1]);
    }
  }

  // ------------------------------------------------------------ every run

  /** The queue of a state, by the places at which its events were queued. */
  ghost predicate InOrder(s: State, places: seq<nat>) {
    Placed(s.slot.queue, s.queued, places) && HoldsLast(s.queued, places)
  }

  lemma EnterOrdered(s: State, e: Event, places: seq<nat>) returns (ps: seq<nat>)
    requires InOrder(s, places)
    ensures InOrder(Enter(s, e), ps)
  {
    ps := places;
    if s.slot.busy {
      AppendPlaced(s.slot.queue, s.queued, places, e);
      AppendHoldsLast(s.queued, places, e);
      hide Placed, HoldsLast;
      ps := TrimOrdered(s.slot.queue + [e], s.queued + [e], places + [|s.queued|]);
    }
  }

  /** Release wakes the earliest event that is still wanted and keeps exactly the others that are. */
  ghost predicate WakesEarliest(s: State, t: State, places: seq<nat>, rest: seq<nat>) {
    if forall x :: x in places ==> !Wanted(s.queued, x) then rest == [] && t.wakes == s.wakes
    else
      exists p :: p in places && Wanted(s.queued, p) && t.wakes == s.wakes + multiset{s.queued[p]}
        && (forall x :: x in rest ==> p < x)
        && forall x :: x in places && Wanted(s.queued, x) <==> x == p || x in rest
  }

  lemma WantedHoldLast(queued: seq<Event>, places: seq<nat>)
    requires forall x :: x in places ==> Wanted(queued, x)
    ensures HoldsLast(queued, places)
  {
    forall x | x in places ensures Covered(queued, places, x) {
      assert Wanted(queued, x);
    }
  }

  /** What deduplication leaves: the earliest wanted place in front, and the other wanted ones behind it. */
  lemma DedupFront(q: seq<Event>, queued: seq<Event>, places: seq<nat>) returns (p: nat, ps: seq<nat>)
    requires Placed(q, queued, places) && HoldsLast(queued, places) && DedupLast(q) != []
    ensures p in places && Wanted(queued, p) && queued[p] == DedupLast(q)[0]
    ensures Placed(DedupLast(q)[1..], queued, ps) && HoldsLast(queued, ps)
    ensures forall x :: x in ps ==> p < x
    ensures forall x :: x in places && Wanted(queued, x) <==> x == p || x in ps
  {
    var all := DedupOrdered(q, queued, places);
    var d := DedupLast(q);
    hide Wanted, HoldsLast, DedupLast;
    FrontIsEarliest(d, queued, all);
    p, ps := all[0], all[1..];
    hide Placed;
    assert p in all;
    WantedHoldLast(queued, ps);
  }

  lemma NothingWanted(q: seq<Event>, queued: seq<Event>, places: seq<nat>)
    requires Placed(q, queued, places) && HoldsLast(queued, places) && DedupLast(q) == []
    ensures Placed([], queued, []) && HoldsLast(queued, []) && forall x :: x in places ==> !Wanted(queued, x)
  {
    var all := DedupOrdered(q, queued, places);
    hide Wanted, DedupLast;
    assert all == [];
  }

  lemma LeaveOrdered(s: State, e: Event, places: seq<nat>) returns (ps: seq<nat>)
    requires InOrder(s, places)
    ensures InOrder(LeaveRoom(s, e), ps)
    ensures WakesEarliest(s, LeaveRoom(s, e), places, ps)
  {
    hide Placed, HoldsLast, Wanted, DedupLast;
    ps := [];
    if DedupLast(s.slot.queue) == [] {
      NothingWanted(s.slot.queue, s.queued, places);
    } else {
      var p: nat;
      p, ps := DedupFront(s.slot.queue, s.queued, places);
      WantedIsPlace(s.queued, p);
    }
  }

  lemma WantedIsPlace(queued: seq<Event>, x: nat)
    requires Wanted(queued, x)
    ensures x < |queued|
  {
  }

  lemma FrontIsEarliest(d: seq<Event>, queued: seq<Event>, all: seq<nat>)
    requires d != [] && Placed(d, queued, all)
    ensures Placed(d[1..], queued, all[1..]) && queued[all[0]] == d[0]
    ensures forall x :: x in all <==> x == all[0] || x in all[1..]
    ensures forall x :: x in all[1..] ==> all[0] < x
  {
    assert all == [all[0]] + all[1..];
  }

  lemma {:induction false} QueueInOrder(s: State, places: seq<nat>, ls: seq<Label>) returns (ps: seq<nat>)
    requires InOrder(s, places) && IsRun(Next, s, ls)
    ensures InOrder(End(Next, s, ls), ps)
    decreases |ls|
  {
    hide InOrder, Next;
    if ls == [] {
      ps := places;
    } else {
      var next := StepOrdered(s, places, ls[0]);
      ps := QueueInOrder(Next(s, ls[0]).value, next, ls[1..]);
    }
  }

  lemma StepOrdered(s: State, places: seq<nat>, l: Label) returns (ps: seq<nat>)
    requires InOrder(s, places) && Next(s, l).Some?
    ensures InOrder(Next(s, l).value, ps)
  {
    match l
    case Arrive(e) => ps := places;
    case EnterArrival(e) => ps := EnterOrdered(s.(arrivals := s.arrivals - multiset{e}), e, places);
    case EnterWake(e) => ps := EnterOrdered(s.(wakes := s.wakes - multiset{e}), e, places);
    case Leave(e) => ps := LeaveOrdered(s, e, places);
  }

  /** In every reachable state the queue is in the order of queueing and has the last report of every role it
      has one of. A turn that leaves wakes the earliest event that is still wanted, and what stays queued is
      exactly the rest of the wanted ones. */
  lemma ReachableInOrder(ls: seq<Label>, e: Event) returns (places: seq<nat>, rest: seq<nat>)
    requires IsRun(Next, INIT, ls)
    ensures var s := End(Next, INIT, ls);
      && InOrder(s, places)
      && (Next(s, Leave(e)).Some? ==>
            && InOrder(Next(s, Leave(e)).value, rest)
            && WakesEarliest(s, Next(s, Leave(e)).value, places, rest))
  {
    assert InOrder(INIT, []);
    hide InOrder, WakesEarliest, Next;
    places := QueueInOrder(INIT, [], ls);
    rest := [];
    if Next(End(Next, INIT, ls), Leave(e)).Some? {
      rest := LeaveStep(End(Next, INIT, ls), e, places);
    }
  }

  lemma LeaveStep(s: State, e: Event, places: seq<nat>) returns (rest: seq<nat>)
    requires InOrder(s, places) && Next(s, Leave(e)).Some?
    ensures InOrder(Next(s, Leave(e)).value, rest) && WakesEarliest(s, Next(s, Leave(e)).value, places, rest)
  {
    hide InOrder, WakesEarliest, LeaveRoom;
    rest := LeaveOrdered(s, e, places);
  }
}
