/**
 The event room of one conversation: backend/app/orch/room.py and the room part of registry.py.

 At most one turn runs per conversation. Events that arrive meanwhile are queued; when the turn ends
 the queue is deduplicated, its head is rescheduled as a new call and the rest stays queued.
 */
module Room {
  import opened Wrappers

  const MAX_QUEUE: nat := 50
  const TASK_DONE := "task_done"

  /** A queued event: its kind, `data["role"]` when there is one, and the rest of its data. */
  datatype Event = Event(kind: string, role: Option<string>, data: string) {
    predicate IsDone() {
      kind == TASK_DONE
    }
  }

  /** What the registry holds for one conversation. */
  datatype Slot = Slot(busy: bool, queue: seq<Event>)

  // ---------------------------------------------------------------- overflow

  /** Index of the first task_done event, or the length when there is none. */
  function FirstDone(q: seq<Event>): (i: nat)
    ensures i <= |q|
  {
    if q == [] || q[0].IsDone() then 0 else 1 + FirstDone(q[1..])
  }

  /** The overflow loop: while the queue is too long, drop its first task_done. */
  function Trim(q: seq<Event>): seq<Event>
    decreases |q|
  {
    var i := FirstDone(q);
    if |q| <= MAX_QUEUE || i == |q| then q else Trim(q[..i] + q[i + 1..])
  }

  predicate HasNoDone(q: seq<Event>) {
    forall i :: 0 <= i < |q| ==> !q[i].IsDone()
  }

  predicate Bounded(q: seq<Event>) {
    |q| <= MAX_QUEUE || HasNoDone(q)
  }

  function CountDone(q: seq<Event>): nat {
    if q == [] then 0 else (if q[0].IsDone() then 1 else 0) + CountDone(q[1..])
  }

  /** The queue without its `n` oldest task_done events; everything else keeps its place. */
  function DropOldestDone(q: seq<Event>, n: nat): seq<Event> {
    if q == [] || n == 0 then q
    else if q[0].IsDone() then DropOldestDone(q[1..], n - 1)
    else [q[0]] + DropOldestDone(q[1..], n)
  }

  function Overflow(q: seq<Event>): nat {
    if |q| <= MAX_QUEUE then 0
    else if |q| - MAX_QUEUE <= CountDone(q) then |q| - MAX_QUEUE
    else CountDone(q)
  }

  lemma {:induction false} CountDoneOfFirst(q: seq<Event>)
    ensures FirstDone(q) == |q| <==> CountDone(q) == 0
    ensures FirstDone(q) == |q| ==> HasNoDone(q)
    ensures FirstDone(q) < |q| ==> CountDone(q[..FirstDone(q)] + q[FirstDone(q) + 1..]) == CountDone(q) - 1
  {
    if q != [] && q[0].IsDone() {
      assert q[..0] + q[1..] == q[1..];
    } else if q != [] {
      CountDoneOfFirst(q[1..]);
      var i := FirstDone(q);
      if i < |q| {
        assert (q[..i] + q[i + 1..])[1..] == q[1..][..i - 1] + q[1..][i..];
      }
    }
  }

  lemma {:induction false} DropOneMore(q: seq<Event>, n: nat)
    requires FirstDone(q) < |q|
    ensures DropOldestDone(q, n + 1) == DropOldestDone(q[..FirstDone(q)] + q[FirstDone(q) + 1..], n)
  {
    var i := FirstDone(q);
    var r := q[..i] + q[i + 1..];
    if q[0].IsDone() {
      assert r == q[1..];
    } else {
      DropOneMore(q[1..], n);
      assert r[1..] == q[1..][..i - 1] + q[1..][i..];
      if n == 0 {
        assert r == [q[0]] + r[1..];
      }
    }
  }

  /** The overflow loop drops exactly the oldest task_done events, and only as many as it must. */
  lemma {:induction false} TrimDropsOldest(q: seq<Event>)
    ensures Trim(q) == DropOldestDone(q, Overflow(q))
    ensures Bounded(Trim(q))
    decreases |q|
  {
    CountDoneOfFirst(q);
    var i := FirstDone(q);
    if |q| > MAX_QUEUE && i < |q| {
      var r := q[..i] + q[i + 1..];
      TrimDropsOldest(r);
      DropOneMore(q, Overflow(r));
    }
  }

  // ------------------------------------------------------------ deduplication

  predicate HasDone(q: seq<Event>, role: Option<string>) {
    exists i :: 0 <= i < |q| && q[i].IsDone() && q[i].role == role
  }

  /** Every event except a task_done that a later task_done of the same role follows. */
  function DedupLast(q: seq<Event>): seq<Event> {
    if q == [] then []
    else if q[0].IsDone() && HasDone(q[1..], q[0].role) then DedupLast(q[1..])
    else [q[0]] + DedupLast(q[1..])
  }

  /** Position `i` holds an event that `release` must keep. */
  predicate MustKeep(q: seq<Event>, i: int)
    requires 0 <= i < |q|
  {
    q[i].IsDone() ==> forall j :: i < j < |q| && q[j].IsDone() ==> q[j].role != q[i].role
  }

  /** The events at the positions from `i` on that must be kept, in queue order. */
  function KeptFrom(q: seq<Event>, i: nat): seq<Event>
    requires i <= |q|
    decreases |q| - i
  {
    if i == |q| then [] else (if MustKeep(q, i) then [q[i]] else []) + KeptFrom(q, i + 1)
  }

  lemma MustKeepAt(q: seq<Event>, i: nat)
    requires i < |q|
    ensures MustKeep(q, i) <==> !(q[i].IsDone() && HasDone(q[i + 1..], q[i].role))
  {
    assert forall j :: i < j < |q| ==> q[j] == q[i + 1..][j - i - 1];
  }

  lemma {:induction false} DedupSuffix(q: seq<Event>, i: nat)
    requires i <= |q|
    ensures DedupLast(q[i..]) == KeptFrom(q, i)
    decreases |q| - i
  {
    if i < |q| {
      MustKeepAt(q, i);
      assert q[i..][1..] == q[i + 1..];
      DedupSuffix(q, i + 1);
    }
  }

  /** `release` yields a stable subsequence of the queue: every event that is not a task_done, and of
      each role's task_done events exactly the one queued last. */
  lemma DedupKeepsLastPerRole(q: seq<Event>)
    ensures DedupLast(q) == KeptFrom(q, 0)
  {
    DedupSuffix(q, 0);
    assert q[0..] == q;
  }

  /** No role loses its report: a dropped task_done leaves one of the same role in the queue. */
  lemma {:induction false} DedupCoversRoles(q: seq<Event>, role: Option<string>)
    ensures HasDone(DedupLast(q), role) <==> HasDone(q, role)
    ensures q != [] ==> DedupLast(q) != []
  {
    if q != [] {
      var t := q[1..];
      DedupCoversRoles(t, role);
      assert q == [q[0]] + t;
      SeenAfter(q[0], t);
      SeenAfter(q[0], DedupLast(t));
    }
  }

  // ------------------------------------------------------ what is dropped, as bags

  predicate OnlyDone(m: multiset<Event>) {
    forall e :: e in m ==> e.IsDone()
  }

  lemma {:induction false} DropOldestBag(q: seq<Event>, n: nat)
    ensures multiset(DropOldestDone(q, n)) <= multiset(q)
    ensures OnlyDone(multiset(q) - multiset(DropOldestDone(q, n)))
  {
    if q != [] && n > 0 {
      assert q == [q[0]] + q[1..];
      DropOldestBag(q[1..], if q[0].IsDone() then n - 1 else n);
    }
  }

  lemma {:induction false} DedupBag(q: seq<Event>)
    ensures multiset(DedupLast(q)) <= multiset(q)
    ensures OnlyDone(multiset(q) - multiset(DedupLast(q)))
  {
    if q != [] {
      assert q == [q[0]] + q[1..];
      DedupBag(q[1..]);
    }
  }

  lemma {:induction false} DedupBounded(q: seq<Event>)
    ensures |DedupLast(q)| <= |q|
    ensures HasNoDone(q) ==> HasNoDone(DedupLast(q))
  {
    if q != [] {
      DedupBounded(q[1..]);
      assert HasNoDone(q) ==> HasNoDone(q[1..]);
    }
  }

  // ------------------------------------------------------------ the two operations

  /** `try_acquire` on one conversation. */
  function Acquire(s: Slot, e: Event): (Slot, bool) {
    if !s.busy then (s.(busy := true), true) else (s.(queue := Trim(s.queue + [e])), false)
  }

  /** `release` on one conversation: the new slot and the event to reschedule. */
  function Release(s: Slot): (Slot, Option<Event>) {
    var d := DedupLast(s.queue);
    if d == [] then (Slot(false, []), None) else (Slot(false, d[1..]), Some(d[0]))
  }

  function Reverse<T>(s: seq<T>): seq<T> {
    if s == [] then [] else [s[|s| - 1]] + Reverse(s[..|s| - 1])
  }

  /** The in-memory registry: the busy set and the queues of all conversations. */
  class Registry {
    var busyRooms: set<ConvId>
    var eventQueues: map<ConvId, seq<Event>>

    constructor ()
      ensures forall c :: SlotOf(c) == Slot(false, [])
    {
      busyRooms := {};
      eventQueues := map[];
    }

    function SlotOf(conv: ConvId): Slot
      reads this
    {
      Slot(conv in busyRooms, if conv in eventQueues then eventQueues[conv] else [])
    }

    method TryAcquire(conv: ConvId, e: Event) returns (acquired: bool)
      modifies this
      ensures (SlotOf(conv), acquired) == Acquire(old(SlotOf(conv)), e)
      ensures forall c :: c != conv ==> SlotOf(c) == old(SlotOf(c))
    {
      if conv !in busyRooms {
        busyRooms := busyRooms + {conv};
        return true;
      }
      var q := TrimQueue((if conv in eventQueues then eventQueues[conv] else []) + [e]);
      eventQueues := eventQueues[conv := q];
      return false;
    }

    /** The overflow loop of `try_acquire`. */
    static method TrimQueue(full: seq<Event>) returns (q: seq<Event>)
      ensures q == Trim(full)
    {
      q := full;
      while |q| > MAX_QUEUE
        invariant Trim(q) == Trim(full)
      {
        var idx := IndexOfDone(q);
        if idx == |q| {
          break;
        }
        q := q[..idx] + q[idx + 1..];
      }
    }

    /** The `next(..., None)` search of the overflow loop. */
    static method IndexOfDone(q: seq<Event>) returns (idx: nat)
      ensures idx == FirstDone(q)
    {
      idx := 0;
      while idx < |q| && !q[idx].IsDone()
        invariant idx <= |q|
        invariant FirstDone(q) == idx + FirstDone(q[idx..])
      {
        assert q[idx..][1..] == q[idx + 1..];
        idx := idx + 1;
      }
    }

    method ReleaseRoom(conv: ConvId) returns (next: Option<Event>)
      modifies this
      ensures (SlotOf(conv), next) == Release(old(SlotOf(conv)))
      ensures forall c :: c != conv ==> SlotOf(c) == old(SlotOf(c))
    {
      busyRooms := busyRooms - {conv};
      var q := if conv in eventQueues then eventQueues[conv] else [];
      eventQueues := eventQueues - {conv};
      if q == [] {
        return None;
      }
      var deduped := Deduplicate(q);
      assert deduped != [] by { DedupCoversRoles(q, None); }
      assert |deduped| == 1 ==> deduped[1..] == [];
      if |deduped| > 1 {
        eventQueues := eventQueues[conv := deduped[1..]];
      }
      return Some(deduped[0]);
    }

    /** The reversed scan with the set of roles already seen. */
    static method Deduplicate(q: seq<Event>) returns (kept: seq<Event>)
      ensures kept == DedupLast(q)
    {
      var seenRoles: set<Option<string>> := {};
      var deduped: seq<Event> := [];
      var i := |q|;
      assert q[i..] == [];
      while i > 0
        invariant 0 <= i <= |q|
        invariant forall r :: r in seenRoles <==> HasDone(q[i..], r)
        invariant Reverse(deduped) == DedupLast(q[i..])
      {
        i := i - 1;
        assert q[i..] == [q[i]] + q[i + 1..];
        SeenAfter(q[i], q[i + 1..]);
        if q[i].IsDone() {
          if q[i].role in seenRoles {
            continue;
          }
          seenRoles := seenRoles + {q[i].role};
        }
        assert (deduped + [q[i]])[..|deduped|] == deduped;
        deduped := deduped + [q[i]];
      }
      assert q[0..] == q;
      kept := Reverse(deduped);
    }
  }

  lemma SeenAfter(e: Event, t: seq<Event>)
    ensures forall r :: HasDone([e] + t, r) <==> (e.IsDone() && e.role == r) || HasDone(t, r)
  {
    forall r ensures HasDone([e] + t, r) <==> (e.IsDone() && e.role == r) || HasDone(t, r) {
      var q := [e] + t;
      if HasDone(t, r) {
        var j :| 0 <= j < |t| && t[j].IsDone() && t[j].role == r;
        assert q[j + 1] == t[j];
      }
      if e.IsDone() && e.role == r {
        assert q[0] == e;
      }
      if HasDone(q, r) {
        var j :| 0 <= j < |q| && q[j].IsDone() && q[j].role == r;
        assert j > 0 ==> t[j - 1] == q[j];
      }
    }
  }
}
