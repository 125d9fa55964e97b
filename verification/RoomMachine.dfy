/**
 Every interleaving of `handle_room_event` calls on one conversation (room.py).

 A call is first in flight, as a fresh arrival or as a wake that `release` scheduled. It then enters:
 it either starts a turn or queues its event. A running turn leaves, which releases the room. Another
 arrival may enter between a release and the wake it scheduled.
 */
module RoomMachine {
  import opened Wrappers
  import opened Machines
  import opened Room

  /** `queued` holds every event that a call ever queued, in the order of the calls. */
  datatype State = State(
    slot: Slot,
    queued: seq<Event>,
    arrivals: multiset<Event>,
    wakes: multiset<Event>,
    running: multiset<Event>,
    submitted: multiset<Event>,
    processed: multiset<Event>,
    dropped: multiset<Event>)

  datatype Label = Arrive(e: Event) | EnterArrival(e: Event) | EnterWake(e: Event) | Leave(e: Event)

  const INIT := State(Slot(false, []), [], multiset{}, multiset{}, multiset{}, multiset{}, multiset{}, multiset{})

  function Next(s: State, l: Label): Option<State> {
    match l
    case Arrive(e) => Some(s.(arrivals := s.arrivals + multiset{e}, submitted := s.submitted + multiset{e}))
    case EnterArrival(e) =>
      if e in s.arrivals then Some(Enter(s.(arrivals := s.arrivals - multiset{e}), e)) else None
    case EnterWake(e) =>
      if e in s.wakes then Some(Enter(s.(wakes := s.wakes - multiset{e}), e)) else None
    case Leave(e) =>
      if e in s.running then Some(LeaveRoom(s, e)) else None
  }

  function Enter(s: State, e: Event): State {
    var (slot, acquired) := Acquire(s.slot, e);
    if acquired then s.(slot := slot, running := s.running + multiset{e})
    else s.(slot := slot, queued := s.queued + [e],
            dropped := s.dropped + (multiset(s.slot.queue + [e]) - multiset(slot.queue)))
  }

  function LeaveRoom(s: State, e: Event): State {
    var (slot, next) := Release(s.slot);
    s.(slot := slot,
       wakes := s.wakes + Woken(next),
       running := s.running - multiset{e},
       processed := s.processed + multiset{e},
       dropped := s.dropped + (multiset(s.slot.queue) - Woken(next) - multiset(slot.queue)))
  }

  function Woken(next: Option<Event>): multiset<Event> {
    if next.Some? then multiset{next.value} else multiset{}
  }

  /** Every event found anywhere in the state. */
  function Found(s: State): multiset<Event> {
    s.arrivals + s.wakes + s.running + multiset(s.slot.queue) + s.processed + s.dropped
  }

  /** What every interleaving keeps. */
  ghost predicate Inv(s: State) {
    // at most one turn runs, and the busy mark says whether one does
    && |s.running| == (if s.slot.busy then 1 else 0)
    // no lost wake-up
    && (s.slot.queue != [] ==> s.slot.busy || s.wakes != multiset{})
    && Bounded(s.slot.queue)
    // nothing vanishes unaccounted, and only task_done events are ever dropped
    && s.submitted == Found(s)
    && OnlyDone(s.dropped)
  }

  lemma QueueBags(a: multiset<Event>, w: multiset<Event>, r: multiset<Event>, q: multiset<Event>,
                  p: multiset<Event>, d: multiset<Event>, e: Event, kept: multiset<Event>)
    requires kept <= q + multiset{e}
    ensures a + w + r + kept + p + (d + (q + multiset{e} - kept)) == a + w + r + q + p + d + multiset{e}
  {
  }

  lemma LeaveBags(a: multiset<Event>, w: multiset<Event>, r: multiset<Event>, q: multiset<Event>,
                  p: multiset<Event>, d: multiset<Event>, e: Event, woken: multiset<Event>, kept: multiset<Event>)
    requires e in r && woken + kept <= q
    ensures a + (w + woken) + (r - multiset{e}) + kept + (p + multiset{e}) + (d + (q - woken - kept))
         == a + w + r + q + p + d
  {
  }

  lemma TrimBag(q: seq<Event>)
    ensures Bounded(Trim(q)) && |Trim(q)| <= |q|
    ensures multiset(Trim(q)) <= multiset(q) && OnlyDone(multiset(q) - multiset(Trim(q)))
  {
    TrimDropsOldest(q);
    DropOldestBag(q, Overflow(q));
    DropOldestShorter(q, Overflow(q));
  }

  lemma {:induction false} DropOldestShorter(q: seq<Event>, n: nat)
    ensures |DropOldestDone(q, n)| <= |q|
  {
    if q != [] && n > 0 {
      DropOldestShorter(q[1..], if q[0].IsDone() then n - 1 else n);
    }
  }

  /** The invariant of a state whose event `e` has left the in-flight bags and is about to enter. */
  ghost predicate Entering(s: State, e: Event) {
    && |s.running| == (if s.slot.busy then 1 else 0)
    && Bounded(s.slot.queue)
    && s.submitted == Found(s) + multiset{e}
    && OnlyDone(s.dropped)
  }

  lemma EnterKeeps(s: State, e: Event)
    requires Entering(s, e)
    ensures Inv(Enter(s, e))
  {
    if s.slot.busy {
      var full := s.slot.queue + [e];
      TrimBag(full);
      assert multiset(full) == multiset(s.slot.queue) + multiset{e};
      QueueBags(s.arrivals, s.wakes, s.running, multiset(s.slot.queue), s.processed, s.dropped, e,
                multiset(Trim(full)));
    } else {
      assert Enter(s, e).submitted == Found(Enter(s, e));
    }
  }

  lemma ArrivalEnters(s: State, e: Event)
    requires Inv(s) && e in s.arrivals
    ensures Entering(s.(arrivals := s.arrivals - multiset{e}), e)
  {
    assert s.arrivals == s.arrivals - multiset{e} + multiset{e};
  }

  lemma WakeEnters(s: State, e: Event)
    requires Inv(s) && e in s.wakes
    ensures Entering(s.(wakes := s.wakes - multiset{e}), e)
  {
    assert s.wakes == s.wakes - multiset{e} + multiset{e};
  }

  lemma ArriveKeeps(s: State, e: Event)
    requires Inv(s)
    ensures Inv(Next(s, Arrive(e)).value)
  {
  }

  lemma ReleaseBag(slot: Slot)
    requires Bounded(slot.queue)
    ensures var (after, next) := Release(slot);
      && Bounded(after.queue)
      && |after.queue| <= |slot.queue| - |Woken(next)|
      && Woken(next) + multiset(after.queue) <= multiset(slot.queue)
      && OnlyDone(multiset(slot.queue) - Woken(next) - multiset(after.queue))
      && (after.queue != [] ==> next.Some?)
  {
    var d := DedupLast(slot.queue);
    DedupBag(slot.queue);
    DedupBounded(slot.queue);
    if d != [] {
      assert d == [d[0]] + d[1..];
      assert multiset(d) == multiset{d[0]} + multiset(d[1..]);
    }
  }

  lemma LeaveKeeps(s: State, e: Event)
    requires Inv(s) && e in s.running
    ensures Inv(LeaveRoom(s, e))
  {
    var (slot, next) := Release(s.slot);
    ReleaseBag(s.slot);
    assert |s.running - multiset{e}| == |s.running| - 1;
    LeaveBags(s.arrivals, s.wakes, s.running, multiset(s.slot.queue), s.processed, s.dropped, e,
              Woken(next), multiset(slot.queue));
  }

  lemma StepKeeps(s: State, l: Label)
    requires Inv(s) && Next(s, l).Some?
    ensures Inv(Next(s, l).value)
  {
    match l
    case Arrive(e) =>
      ArriveKeeps(s, e);
    case EnterArrival(e) =>
      ArrivalEnters(s, e);
      EnterKeeps(s.(arrivals := s.arrivals - multiset{e}), e);
    case EnterWake(e) =>
      WakeEnters(s, e);
      EnterKeeps(s.(wakes := s.wakes - multiset{e}), e);
    case Leave(e) =>
      LeaveKeeps(s, e);
  }

  /** Room safety in every reachable state: at most one running turn, no lost wake-up, a bounded queue
      and full accounting of every submitted event. */
  lemma ReachableIsSafe(ls: seq<Label>)
    requires IsRun(Next, INIT, ls)
    ensures Inv(End(Next, INIT, ls))
    ensures var q := End(Next, INIT, ls).slot.queue; |q| <= 50 || forall i :: 0 <= i < |q| ==> q[i].kind != "task_done"
  {
    forall t, l | Inv(t) && Next(t, l).Some? ensures Inv(Next(t, l).value) {
      StepKeeps(t, l);
    }
    InvariantHolds(Next, Inv, INIT, ls);
  }

  /** Events other than task_done are conserved over every run, one by one. */
  lemma EventsConserved(ls: seq<Label>, e: Event)
    requires IsRun(Next, INIT, ls) && !e.IsDone()
    ensures var s := End(Next, INIT, ls);
      s.submitted[e] == s.processed[e] + s.running[e] + multiset(s.slot.queue)[e] + s.arrivals[e] + s.wakes[e]
  {
    ReachableIsSafe(ls);
    var s := End(Next, INIT, ls);
    assert s.dropped[e] == 0;
  }

  // ------------------------------------------------------------ the room drains

  predicate Quiet(s: State) {
    s.arrivals == multiset{} && s.wakes == multiset{} && s.running == multiset{}
  }

  /** An upper bound on the steps a room can take without new arrivals. */
  function Work(s: State): nat {
    3 * (|s.arrivals| + |s.wakes|) + 2 * (|s.running| + |s.slot.queue|)
  }

  predicate NoArrival(l: Label) {
    !l.Arrive?
  }

  lemma WorkDecreases(s: State, l: Label)
    requires Inv(s) && Next(s, l).Some? && NoArrival(l)
    ensures Work(Next(s, l).value) < Work(s)
  {
    match l
    case EnterArrival(e) =>
      TrimBag(s.slot.queue + [e]);
      assert |s.arrivals - multiset{e}| == |s.arrivals| - 1;
    case EnterWake(e) =>
      TrimBag(s.slot.queue + [e]);
      assert |s.wakes - multiset{e}| == |s.wakes| - 1;
    case Leave(e) =>
      ReleaseBag(s.slot);
      assert |s.running - multiset{e}| == |s.running| - 1;
  }

  lemma SomeStep(s: State) returns (l: Label)
    requires !Quiet(s)
    ensures Next(s, l).Some? && NoArrival(l)
  {
    if e :| e in s.running {
      l := Leave(e);
    } else if e :| e in s.wakes {
      l := EnterWake(e);
    } else {
      var e :| e in s.arrivals;
      l := EnterArrival(e);
    }
  }

  /** Without new arrivals every schedule is finite. */
  lemma SchedulesEnd(s: State, ls: seq<Label>)
    requires Inv(s) && IsRun(Next, s, ls)
    requires forall i :: 0 <= i < |ls| ==> NoArrival(ls[i])
    ensures |ls| + Work(End(Next, s, ls)) <= Work(s)
  {
    forall t, l | Inv(t) && Next(t, l).Some? ensures Inv(Next(t, l).value) {
      StepKeeps(t, l);
    }
    forall t, l | Inv(t) && Next(t, l).Some? && NoArrival(l) ensures Work(Next(t, l).value) < Work(t) {
      WorkDecreases(t, l);
    }
    RunIsBounded(Next, Inv, NoArrival, Work, s, ls);
  }

  /** From every reachable state the room can be driven to rest without new arrivals. */
  lemma CanDrain(s: State) returns (ls: seq<Label>)
    requires Inv(s)
    ensures IsRun(Next, s, ls) && (forall i :: 0 <= i < |ls| ==> NoArrival(ls[i])) && Quiet(End(Next, s, ls))
  {
    forall t, l | Inv(t) && Next(t, l).Some? ensures Inv(Next(t, l).value) {
      StepKeeps(t, l);
    }
    forall t, l | Inv(t) && Next(t, l).Some? && NoArrival(l) ensures Work(Next(t, l).value) < Work(t) {
      WorkDecreases(t, l);
    }
    forall t | Inv(t) && !Quiet(t) ensures exists l :: NoArrival(l) && Next(t, l).Some? {
      var l := SomeStep(t);
    }
    ls := FinalIsReached(Next, Inv, NoArrival, Work, Quiet, s);
  }

  /** A room that no call can move holds nothing back: it is free, its queue is empty, and every
      submitted event was processed apart from dropped task_done events. */
  lemma StuckMeansDone(s: State)
    requires Inv(s)
    requires forall l :: NoArrival(l) ==> Next(s, l).None?
    ensures s.slot == Slot(false, []) && s.submitted == s.processed + s.dropped
  {
    if !Quiet(s) {
      var l := SomeStep(s);
    }
  }
}
