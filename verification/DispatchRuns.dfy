/**
 Whole runs of specialist tasks: what becomes of every task, how long it takes, the two ways a task goes
 astray from the initial state on, and the body of `_run_sub` as a run of its own.
 */
module DispatchRuns {
  import opened Wrappers
  import opened Machines
  import opened Dispatch
  import opened Sums

  // ------------------------------------------------------------ single steps

  lemma CreateStep(s: State, post: Post, id: TaskId) returns (ls: seq<Label>, t: State)
    requires s.lock == None && post !in s.running && id !in s.rows
    ensures ls == [Check(post), Create(id)] && Leads(Next, s, ls, t)
    ensures t == s.(rows := s.rows[id := Queued], running := s.running[post := id],
                    subs := s.subs[id := Sub(post, Created)])
  {
    hide IsRun, End;
    Stays(Next, s);
    var s1 := s.(lock := Some(post));
    ls := LeadsOn(Next, s, [], s, Check(post), s1);
    t := Next(s1, Create(id)).value;
    ls := LeadsOn(Next, s, ls, s1, Create(id), t);
  }

  /** The state after an enabled step of a task. */
  lemma TaskStep(s0: State, ls: seq<Label>, s: State, l: Label) returns (more: seq<Label>, t: State)
    requires Leads(Next, s0, ls, s) && OfSub(l) && Enabled(s, l)
    ensures more == ls + [l] && Leads(Next, s0, more, t) && t == Effect(s, l)
  {
    hide Leads, Effect;
    t := Effect(s, l);
    assert Next(s, l) == Some(t);
    more := LeadsOn(Next, s0, ls, s, l, t);
  }

  // ------------------------------------------------------------ the body of _run_sub

  /** A task that waits for a free slot and is left alone goes through exactly what `Tasks.RunSub` does to
      the rows, the registry and the reports, whatever way its run ends. */
  lemma AloneIsRunSub(s: State, id: TaskId, run: RunResult) returns (ls: seq<Label>, t: State)
    requires id in s.subs && id in s.rows && s.subs[id].phase == Waiting
    requires |Holders(s.subs, s.subs[id].post.conv)| < SUB_CONCURRENCY
    ensures Leads(Next, s, ls, t) && t.lock == s.lock && t.lateMarks == s.lateMarks
    ensures t.rows == s.rows[id := OutcomeOf(run)] && t.running == Freed(s.running, s.subs[id].post)
    ensures t.reports == s.reports + [id] && t.subs == s.subs[id := Sub(s.subs[id].post, Emitted)]
  {
    hide Leads, Holders;
    var post := s.subs[id].post;
    Stays(Next, s);
    var s1: State, s2: State, s3: State;
    ls, s1 := TaskStep(s, [], s, Acquire(id));
    ls, s2 := TaskStep(s, ls, s1, MarkLands(id));
    ls, s3 := TaskStep(s, ls, s2, if run.WasCancelled? then Cancel(id) else Stop(id, OutcomeOf(run)));
    assert s3 == s.(rows := s.rows[id := Running], subs := s.subs[id := Sub(post, Ending(OutcomeOf(run)))]);
    ls, t := ReportsAlone(s, ls, s3, id);
  }

  lemma ReportsAlone(s0: State, ls: seq<Label>, s: State, id: TaskId) returns (more: seq<Label>, t: State)
    requires Leads(Next, s0, ls, s) && id in s.subs && id in s.rows && s.subs[id].phase.Ending? && !s.rows[id].Final()
    ensures Leads(Next, s0, more, t) && more == ls + [Unregister(id), WriteFinish(id), Emit(id)]
    ensures var sub := s.subs[id];
      t == s.(rows := s.rows[id := sub.phase.outcome], running := Freed(s.running, sub.post),
              subs := s.subs[id := Sub(sub.post, Emitted)], reports := s.reports + [id])
  {
    hide Leads, Holders;
    var s1: State, s2: State;
    more, s1 := TaskStep(s0, ls, s, Unregister(id));
    more, s2 := TaskStep(s0, more, s1, WriteFinish(id));
    more, t := TaskStep(s0, more, s2, Emit(id));
  }

  // ------------------------------------------------------------ a task that stays marked running

  lemma ReachesSpawned(s: State, post: Post, id: TaskId) returns (ls: seq<Label>, t: State)
    requires Initial(s) && id !in s.rows
    ensures Leads(Next, s, ls, t)
    ensures t == s.(running := map[post := id], rows := s.rows[id := Queued], subs := map[id := Sub(post, Spawned)])
  {
    hide Leads;
    var s1: State;
    ls, s1 := CreateStep(s, post, id);
    ls, t := TaskStep(s, ls, s1, Spawn(id));
  }

  lemma ReachesMarking(s: State, post: Post, id: TaskId) returns (ls: seq<Label>, t: State)
    requires Initial(s) && id !in s.rows
    ensures Leads(Next, s, ls, t)
    ensures t == s.(running := map[post := id], rows := s.rows[id := Queued], subs := map[id := Sub(post, Marking)])
  {
    hide Leads;
    var s1: State, s2: State;
    ls, s1 := ReachesSpawned(s, post, id);
    ls, s2 := TaskStep(s, ls, s1, Enter(id));
    assert Holders(s2.subs, post.conv) == {};
    ls, t := TaskStep(s, ls, s2, Acquire(id));
  }

  /** A task that has reported and whose row nothing of its own will change any more. */
  predicate Stranded(s: State, id: TaskId) {
    && id in s.subs && s.subs[id].phase.Emitted? && id in s.rows && id !in s.lateMarks
    && (s.rows[id] == Running || s.rows[id] == Failed(RESTART))
  }

  /** From every initial state, for a fresh task of any post: the user cancels it while its mark_running is
      under way, it reports once and its row holds the final status; then the late mark makes it running. */
  lemma LateMarkReopens(s: State, post: Post, id: TaskId) returns (ls: seq<Label>, t: State, u: State)
    requires Initial(s) && id !in s.rows
    ensures Leads(Next, s, ls, t) && Leads(Next, s, ls + [LateMark(id)], u)
    ensures id in t.rows && t.rows[id] == Failed(CANCELLED) && t.rows[id].Final() && t.reports == [id]
    ensures Stranded(u, id) && u.rows[id] == Running && u.running == map[] && u.reports == [id]
  {
    hide Leads;
    var s1: State, s2: State;
    ls, s1 := ReachesMarking(s, post, id);
    ls, s2 := TaskStep(s, ls, s1, Cancel(id));
    ls, t := ReportsAlone(s, ls, s2, id);
    u := Next(t, LateMark(id)).value;
    var more := LeadsOn(Next, s, ls, t, LateMark(id), u);
  }

  predicate CleansUp(l: Label, id: TaskId) {
    l.Cleanup? && id in l.ids
  }

  lemma StrandedStep(t: State, l: Label, id: TaskId)
    requires Stranded(t, id) && Next(t, l).Some?
    ensures var u := Next(t, l).value;
      Stranded(u, id) && u.rows[id] == if CleansUp(l, id) then Failed(RESTART) else t.rows[id]
  {
    hide Holders;
  }

  /** The row of a stranded task stays as it is in every run, until a cleanup that covers it. */
  lemma {:induction false} StrandedUntilCleanup(t: State, ls: seq<Label>, id: TaskId)
    requires Stranded(t, id) && IsRun(Next, t, ls)
    ensures var u := End(Next, t, ls);
      && Stranded(u, id)
      && u.rows[id] == if exists i :: 0 <= i < |ls| && CleansUp(ls[i], id) then Failed(RESTART) else t.rows[id]
    decreases |ls|
  {
    hide Next, Stranded;
    if ls != [] {
      StrandedStep(t, ls[0], id);
      StrandedUntilCleanup(Next(t, ls[0]).value, ls[1..], id);
      assert forall i :: 0 <= i < |ls| ==> ls[i] == if i == 0 then ls[0] else ls[1..][i - 1];
      assert (exists i :: 0 <= i < |ls| && CleansUp(ls[i], id)) <==>
             (CleansUp(ls[0], id) || exists i :: 0 <= i < |ls[1..]| && CleansUp(ls[1..][i], id)) by {
        if i :| 0 <= i < |ls[1..]| && CleansUp(ls[1..][i], id) {
          assert CleansUp(ls[i + 1], id);
        }
      }
    }
  }

  // ------------------------------------------------------------ a task that never runs

  /** From every initial state, for a fresh task of any post: cancelled before its body ran, it keeps the
      post registered in every continuation of the run, so the post is never given to another task. */
  lemma DroppedForever(s: State, post: Post, id: TaskId) returns (ls: seq<Label>, t: State)
    requires Initial(s) && id !in s.rows
    ensures Leads(Next, s, ls, t) && id in t.subs && t.subs[id] == Sub(post, Dropped)
    ensures forall more :: IsRun(Next, t, more) ==>
        var u := End(Next, t, more);
        && post in u.running && u.running[post] == id && u.lock != Some(post) && CountOf(u.reports, id) == 0
  {
    var s1: State;
    ls, s1 := ReachesSpawned(s, post, id);
    ls, t := TaskStep(s, ls, s1, CancelUnstarted(id));
    assert Inv(t) by {
      ReachableOk(s, ls);
    }
    hide Next, Inv, Leads;
    forall more | IsRun(Next, t, more)
      ensures var u := End(Next, t, more);
        && post in u.running && u.running[post] == id && u.lock != Some(post) && CountOf(u.reports, id) == 0
    {
      DroppedBlocksItsPost(t, more, id);
    }
  }

  // ------------------------------------------------------------ how long a task takes

  /** The steps left in a phase. */
  function Rank(p: Phase): nat {
    match p
    case Created => 8
    case Spawned => 7
    case Waiting => 6
    case Marking => 5
    case Working => 4
    case Ending(_) => 3
    case Reporting(_) => 2
    case Written(_) => 1
    case _ => 0
  }

  /** The steps of a task, the late mark among them. */
  predicate StepOf(l: Label, id: TaskId) {
    (OfSub(l) || l.LateMark?) && l.id == id
  }

  function StepsOf(ls: seq<Label>, id: TaskId): nat {
    if ls == [] then 0 else (if StepOf(ls[0], id) then 1 else 0) + StepsOf(ls[1..], id)
  }

  /** An upper bound on the steps a task has before it. */
  function StepsLeft(s: State, id: TaskId): nat {
    (if id in s.subs then Rank(s.subs[id].phase) else if id in s.rows then 0 else 8)
    + (if id in s.lateMarks then 1 else 0)
  }

  lemma StepsLower(s: State, l: Label, id: TaskId)
    requires StatusOk(s) && Next(s, l).Some?
    ensures StepsLeft(Next(s, l).value, id) + (if StepOf(l, id) then 1 else 0) <= StepsLeft(s, id)
  {
    hide Holders, FinishStatus;
  }

  lemma {:induction false} StepsAreLeft(s: State, ls: seq<Label>, id: TaskId)
    requires StatusOk(s) && IsRun(Next, s, ls)
    ensures StepsOf(ls, id) + StepsLeft(End(Next, s, ls), id) <= StepsLeft(s, id)
    decreases |ls|
  {
    hide Next, StatusOk, StepsLeft;
    if ls != [] {
      StatusKeeps(s, ls[0]);
      StepsLower(s, ls[0], id);
      StepsAreLeft(Next(s, ls[0]).value, ls[1..], id);
    }
  }

  /** In every run, whatever else goes on in between, a task takes at most eight steps. */
  lemma TaskTakesEightSteps(s: State, ls: seq<Label>, id: TaskId)
    requires Initial(s) && IsRun(Next, s, ls)
    ensures StepsOf(ls, id) <= 8
  {
    InitialOk(s);
    StepsAreLeft(s, ls, id);
  }

  // ------------------------------------------------------------ what becomes of a task

  predicate IsDropped(s: State, id: TaskId) {
    id in s.subs && s.subs[id].phase.Dropped?
  }

  predicate IsLost(s: State, id: TaskId) {
    id in s.subs && s.subs[id].phase.Lost?
  }

  lemma FateStep(s: State, l: Label, id: TaskId)
    requires StatusOk(s) && Next(s, l).Some?
    ensures IsDropped(Next(s, l).value, id) <==> IsDropped(s, id) || l == CancelUnstarted(id)
    ensures IsLost(Next(s, l).value, id) <==> IsLost(s, id) || l == ReportFails(id)
  {
    hide Holders, FinishStatus;
  }

  /** Only the two steps that lose a task ever lose it. */
  lemma {:induction false} Fate(s: State, ls: seq<Label>, id: TaskId)
    requires StatusOk(s) && IsRun(Next, s, ls)
    ensures IsDropped(End(Next, s, ls), id) <==> IsDropped(s, id) || CancelUnstarted(id) in ls
    ensures IsLost(End(Next, s, ls), id) <==> IsLost(s, id) || ReportFails(id) in ls
    decreases |ls|
  {
    hide Next, StatusOk, IsDropped, IsLost;
    if ls != [] {
      StatusKeeps(s, ls[0]);
      FateStep(s, ls[0], id);
      Fate(Next(s, ls[0]).value, ls[1..], id);
      assert forall l :: l in ls <==> l == ls[0] || l in ls[1..];
    }
  }

  /** The labels by which a task goes on by itself. */
  predicate Proceeds(l: Label) {
    l.Spawn? || l.Enter? || l.Acquire? || l.MarkLands? || l.Stop? || l.Unregister? || l.WriteFinish? || l.Emit?
  }

  predicate Finished(p: Phase) {
    p.Dropped? || p.Emitted? || p.Lost?
  }

  predicate AllFinished(s: State) {
    forall id :: id in s.subs ==> Finished(s.subs[id].phase)
  }

  /** A task that has not ended can go on, or waits for one of its conversation that can. */
  lemma SomeStep(s: State, id: TaskId) returns (l: Label)
    requires Inv(s) && id in s.subs && !Finished(s.subs[id].phase)
    ensures Proceeds(l) && Next(s, l).Some?
  {
    hide RegistryOk, ReportsOk, FinishStatus;
    var holders := Holders(s.subs, s.subs[id].post.conv);
    var j := id;
    if s.subs[id].phase.Waiting? && |holders| == SUB_CONCURRENCY {
      j :| j in holders;
    }
    match s.subs[j].phase
    case Created => l := Spawn(j);
    case Spawned => l := Enter(j);
    case Waiting => l := Acquire(j);
    case Marking => l := MarkLands(j);
    case Working => l := Stop(j, Done);
    case Ending(_) => l := Unregister(j);
    case Reporting(_) => l := WriteFinish(j);
    case Written(_) => l := Emit(j);
  }

  /** When no task can go on, every task has sent exactly one task_done, except those that the run
      cancelled before their body ran or whose report it made fail: these have sent none. */
  lemma StuckMeansReported(s: State, ls: seq<Label>, id: TaskId)
    requires Initial(s) && IsRun(Next, s, ls) && id in End(Next, s, ls).subs
    requires forall l :: Proceeds(l) ==> Next(End(Next, s, ls), l).None?
    ensures CountOf(End(Next, s, ls).reports, id)
      == if CancelUnstarted(id) in ls || ReportFails(id) in ls then 0 else 1
  {
    var t := End(Next, s, ls);
    ReachableOk(s, ls);
    InitialOk(s);
    Fate(s, ls, id);
    hide Next;
    if !Finished(t.subs[id].phase) {
      var l := SomeStep(t, id);
    }
    assert ReportsOk(t);
  }

  // ------------------------------------------------------------ a schedule to the end

  function Ranks(subs: map<TaskId, Sub>): map<TaskId, nat> {
    map id | id in subs :: Rank(subs[id].phase)
  }

  ghost function Work(s: State): nat {
    Sum(Ranks(s.subs))
  }

  lemma WorkDecreases(s: State, l: Label)
    requires Next(s, l).Some? && Proceeds(l)
    ensures Work(Next(s, l).value) < Work(s)
  {
    hide Holders, FinishStatus, Sum;
    var t := Next(s, l).value;
    var r := Rank(t.subs[l.id].phase);
    assert Ranks(t.subs) == Ranks(s.subs)[l.id := r];
    SumUpdate(Ranks(s.subs), l.id, r);
  }

  /** From every reachable state there is a schedule by which every task that has not been lost yet sends
      its task_done. */
  lemma CanDrain(s: State) returns (ls: seq<Label>)
    requires Inv(s)
    ensures IsRun(Next, s, ls) && forall i :: 0 <= i < |ls| ==> Proceeds(ls[i])
    ensures var t := End(Next, s, ls);
      forall id :: id in t.subs ==> CountOf(t.reports, id) == if IsDropped(s, id) || IsLost(s, id) then 0 else 1
  {
    hide Next, Inv;
    forall t, l | Inv(t) && Next(t, l).Some? ensures Inv(Next(t, l).value) {
      StepKeeps(t, l);
    }
    forall t, l | Inv(t) && Next(t, l).Some? && Proceeds(l) ensures Work(Next(t, l).value) < Work(t) {
      WorkDecreases(t, l);
    }
    forall t | Inv(t) && !AllFinished(t) ensures exists l :: Proceeds(l) && Next(t, l).Some? {
      var id :| id in t.subs && !Finished(t.subs[id].phase);
      var l := SomeStep(t, id);
    }
    ls := FinalIsReached(Next, Inv, Proceeds, Work, AllFinished, s);
    InvariantHolds(Next, Inv, s, ls);
    var t := End(Next, s, ls);
    forall id | id in t.subs
      ensures CountOf(t.reports, id) == if IsDropped(s, id) || IsLost(s, id) then 0 else 1
    {
      DrainedReports(s, ls, id);
    }
  }

  lemma DrainedReports(s: State, ls: seq<Label>, id: TaskId)
    requires Inv(s) && IsRun(Next, s, ls) && Inv(End(Next, s, ls)) && AllFinished(End(Next, s, ls))
    requires forall i :: 0 <= i < |ls| ==> Proceeds(ls[i])
    requires id in End(Next, s, ls).subs
    ensures CountOf(End(Next, s, ls).reports, id) == if IsDropped(s, id) || IsLost(s, id) then 0 else 1
  {
    hide Next, RegistryOk, StatusOk, SlotsOk;
    Fate(s, ls, id);
    assert forall l :: l in ls ==> Proceeds(l);
    assert CancelUnstarted(id) !in ls && ReportFails(id) !in ls;
  }
}
