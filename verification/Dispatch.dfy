/**
 Specialist tasks: the dispatch lock of backend/app/orch/dispatch.py, the running-task map and the
 per-conversation semaphore of registry.py, the sub body of sub_runner.py and the status updates of
 store.py.
 */
module Dispatch {
  import opened Wrappers
  import opened Machines

  const SUB_CONCURRENCY: nat := 4
  const RESTART := "server restart"
  const CANCELLED := "cancelled by user"

  datatype Post = Post(conv: ConvId, role: string)

  datatype Status = Queued | Running | Done | Failed(reason: string) | Timeout {
    /** A finish never overwrites this: terminal, and not the mark that a restart leaves. */
    predicate Final() {
      Done? || Timeout? || (Failed? && reason != RESTART)
    }

    predicate Terminal() {
      Done? || Timeout? || Failed?
    }
  }

  /** `_update_status_sync` with a terminal status. */
  function FinishStatus(was: Status, outcome: Status): Status {
    if was.Final() then was else outcome
  }

  /** `_cleanup_orphans_sync`. */
  function Orphaned(was: Status): Status {
    if was == Queued || was == Running then Failed(RESTART) else was
  }

  /** How the run of a task ends. */
  datatype RunResult = Returned | IdledOut | WasCancelled | Raised(reason: string)

  function OutcomeOf(run: RunResult): Status {
    match run
    case Returned => Done
    case IdledOut => Timeout
    case WasCancelled => Failed(CANCELLED)
    case Raised(reason) => Failed(if |reason| <= 500 then reason else reason[..500])
  }

  /** Which way a run ends gives which status; the reason of a failure is cut after 500 characters. */
  lemma OutcomeIs(run: RunResult)
    ensures OutcomeOf(run) == Done <==> run == Returned
    ensures OutcomeOf(run) == Timeout <==> run == IdledOut
    ensures run == WasCancelled ==> OutcomeOf(run) == Failed("cancelled by user")
    ensures run.Raised? ==> OutcomeOf(run).Failed? && OutcomeOf(run).reason <= run.reason
                            && |OutcomeOf(run).reason| == if |run.reason| > 500 then 500 else |run.reason|
  {
  }

  /** A finish is refused exactly by a status that a task itself has reached: done, timeout, or failed for
      any reason but a restart. A cleanup turns exactly the open statuses into the mark of a restart. */
  lemma StatusGuards(was: Status, outcome: Status)
    ensures FinishStatus(was, outcome)
         == if was in {Done, Timeout} || (was.Failed? && was.reason != "server restart") then was else outcome
    ensures Orphaned(was) == if was in {Queued, Running} then Failed("server restart") else was
  {
  }

  // ------------------------------------------------------------ single updates of the tables

  /** `mark_running`: no guard on the status. */
  function Marked(rows: map<TaskId, Status>, id: TaskId): map<TaskId, Status> {
    if id in rows then rows[id := Running] else rows
  }

  /** `finish_task`. */
  function Finish(rows: map<TaskId, Status>, id: TaskId, outcome: Status): map<TaskId, Status> {
    if id in rows then rows[id := FinishStatus(rows[id], outcome)] else rows
  }

  /** `unregister_running`: whatever task the post is registered for. */
  function Freed(running: map<Post, TaskId>, post: Post): map<Post, TaskId> {
    running - {post}
  }

  /** `cleanup_orphans` over the rows queued before the boot time. */
  function Cleaned(rows: map<TaskId, Status>, before: set<TaskId>): map<TaskId, Status> {
    map id | id in rows :: if id in before then Orphaned(rows[id]) else rows[id]
  }

  /** The status of a conversation; only `running` and `idle` matter here. */
  datatype Activity = Idle | InTurn | OtherActivity(name: string)

  // ------------------------------------------------------------ the tables as they are updated in place

  class Tasks {
    var rows: map<TaskId, Status>
    var posts: map<TaskId, Post>
    var convs: map<ConvId, Activity>
    var running: map<Post, TaskId>
    var reports: seq<TaskId>
    var nextId: TaskId

    ghost predicate Valid()
      reads this
    {
      && posts.Keys == rows.Keys
      && (forall id :: id in rows ==> id < nextId)
      && (forall p :: p in running ==> running[p] in posts && posts[running[p]] == p)
    }

    /** Some queued or running task belongs to the conversation. */
    ghost predicate HasOpenTask(conv: ConvId)
      reads this
      requires Valid()
    {
      exists id :: id in rows && posts[id].conv == conv && (rows[id] == Queued || rows[id] == Running)
    }

    constructor ()
      ensures Valid() && rows == map[] && convs == map[] && running == map[] && reports == []
    {
      rows, posts, convs, running, reports, nextId := map[], map[], map[], map[], [], 0;
    }

    /** `create_task_guarded`: a new queued row that is registered, or the task already registered. */
    method CreateTaskGuarded(conv: ConvId, role: string) returns (task: Option<TaskId>, existing: Option<TaskId>)
      requires Valid()
      modifies this
      ensures Valid()
      ensures Post(conv, role) in old(running) ==>
        task == None && existing == Some(old(running)[Post(conv, role)])
        && rows == old(rows) && posts == old(posts) && running == old(running) && reports == old(reports)
        && convs == old(convs)
      ensures Post(conv, role) !in old(running) ==>
        && task.Some? && existing == None && task.value !in old(rows)
        && rows == old(rows)[task.value := Queued]
        && posts == old(posts)[task.value := Post(conv, role)]
        && running == old(running)[Post(conv, role) := task.value] && reports == old(reports)
        && convs == old(convs)
    {
      var post := Post(conv, role);
      if post in running {
        return None, Some(running[post]);
      }
      var id := nextId;
      nextId := nextId + 1;
      rows, posts := rows[id := Queued], posts[id := post];
      running := running[post := id];
      return Some(id), None;
    }

    method UnregisterRunning(conv: ConvId, role: string)
      requires Valid()
      modifies `running
      ensures Valid() && running == Freed(old(running), Post(conv, role))
    {
      running := running - {Post(conv, role)};
    }

    method MarkRunning(id: TaskId)
      requires Valid()
      modifies `rows
      ensures Valid() && rows == Marked(old(rows), id)
    {
      if id in rows {
        rows := rows[id := Running];
      }
    }

    /** `written` says whether a row was updated. */
    method FinishTask(id: TaskId, outcome: Status) returns (written: bool)
      requires Valid() && outcome.Terminal()
      modifies `rows
      ensures Valid() && written == (id in old(rows) && !old(rows)[id].Final())
      ensures rows == Finish(old(rows), id, outcome)
    {
      written := id in rows && !((rows[id].Done? || rows[id].Timeout? || rows[id].Failed?)
                                 && !(rows[id].Failed? && rows[id].reason == RESTART));
      if written {
        rows := rows[id := outcome];
      }
      assert id in old(rows) && !written ==> rows == rows[id := rows[id]];
    }

    /** `_report`: unregister, finish, send task_done. */
    method Report(id: TaskId, post: Post, outcome: Status)
      requires Valid() && outcome.Terminal()
      modifies `running, `rows, `reports
      ensures Valid() && running == Freed(old(running), post) && reports == old(reports) + [id]
      ensures rows == Finish(old(rows), id, outcome)
    {
      UnregisterRunning(post.conv, post.role);
      var written := FinishTask(id, outcome);
      reports := reports + [id];
    }

    /** `_run_sub` when nothing else interleaves; `raised` says whether the cancellation goes on. */
    method RunSub(id: TaskId, run: RunResult) returns (raised: bool)
      requires Valid() && id in rows
      modifies `running, `rows, `reports
      ensures Valid() && rows == old(rows)[id := OutcomeOf(run)]
      ensures running == Freed(old(running), posts[id]) && reports == old(reports) + [id]
      ensures raised == run.WasCancelled?
      ensures match run
        case Returned => rows[id] == Done
        case IdledOut => rows[id] == Timeout
        case WasCancelled => rows[id] == Failed("cancelled by user")
        case Raised(reason) => rows[id].Failed? && rows[id].reason == reason[..if |reason| > 500 then 500 else |reason|]
    {
      var outcome := Failed("unknown");
      raised := false;
      MarkRunning(id);
      match run {
        case Returned =>
          outcome := Done;
        case IdledOut =>
          outcome := Timeout;
        case WasCancelled =>
          outcome := Failed(CANCELLED);
          raised := true;
        case Raised(reason) =>
          outcome := Failed(if |reason| <= 500 then reason else reason[..500]);
      }
      Report(id, posts[id], outcome);
    }

    method FailOrphans(before: set<TaskId>) returns (n: nat)
      requires Valid()
      modifies `rows
      ensures Valid() && rows == Cleaned(old(rows), before)
      ensures n == |set id | id in old(rows) && id in before && old(rows)[id] != Orphaned(old(rows)[id])|
    {
      var hit := set id | id in rows && id in before && (rows[id] == Queued || rows[id] == Running);
      assert hit == set id | id in rows && id in before && rows[id] != Orphaned(rows[id]);
      rows := map id | id in rows :: if id in hit then Failed(RESTART) else rows[id];
      return |hit|;
    }

    method IdleConversations()
      requires Valid()
      modifies `convs
      ensures Valid() && convs.Keys == old(convs).Keys
      ensures forall c :: c in convs ==>
        convs[c] == if old(convs)[c] == InTurn && !HasOpenTask(c) then Idle else old(convs)[c]
    {
      var busy := set id | id in rows && (rows[id] == Queued || rows[id] == Running) :: posts[id].conv;
      convs := map c | c in convs :: if convs[c] == InTurn && c !in busy then Idle else convs[c];
    }

    /** `cleanup_orphans`: the task rows first; then every running conversation without an open task
        becomes idle, whenever that task was queued. */
    method CleanupOrphans(before: set<TaskId>) returns (n: nat)
      requires Valid()
      modifies `rows, `convs
      ensures Valid() && rows == Cleaned(old(rows), before)
      ensures n == |set id | id in old(rows) && id in before && old(rows)[id] != Orphaned(old(rows)[id])|
      ensures convs.Keys == old(convs).Keys
      ensures forall c :: c in convs ==>
        convs[c] == if old(convs)[c] == InTurn && !HasOpenTask(c) then Idle else old(convs)[c]
    {
      n := FailOrphans(before);
      IdleConversations();
    }
  }

  // ------------------------------------------------------------ every interleaving

  /** Where a task of this process stands. Dropped: cancelled before its body ever ran. */
  datatype Phase =
    | Created | Spawned | Dropped
    | Waiting | Marking | Working
    | Ending(outcome: Status) | Reporting(outcome: Status) | Written(outcome: Status)
    | Emitted | Lost
  {
    /** From the dispatch to the first statement of the report. */
    predicate Registered() {
      Created? || Spawned? || Dropped? || Waiting? || Marking? || Working? || Ending?
    }

    predicate HoldsSlot() {
      Marking? || Working?
    }

    /** The final status has not been written. */
    predicate Open() {
      Registered() || Reporting?
    }
  }

  datatype Sub = Sub(post: Post, phase: Phase)

  /** `rows` also holds the tasks of other and earlier processes. */
  datatype State = State(
    rows: map<TaskId, Status>,
    running: map<Post, TaskId>,
    subs: map<TaskId, Sub>,
    lock: Option<Post>,
    lateMarks: set<TaskId>,
    reports: seq<TaskId>)

  datatype Label =
    | Check(post: Post)
    | Create(id: TaskId)
    | Spawn(id: TaskId)
    | CancelUnstarted(id: TaskId)
    | Enter(id: TaskId)
    | Acquire(id: TaskId)
    | MarkLands(id: TaskId)
    | Stop(id: TaskId, outcome: Status)
    | Cancel(id: TaskId)
    | Unregister(id: TaskId)
    | WriteFinish(id: TaskId)
    | Emit(id: TaskId)
    | ReportFails(id: TaskId)
    | LateMark(id: TaskId)
    | Cleanup(ids: set<TaskId>)

  predicate OfSub(l: Label) {
    !l.Check? && !l.Create? && !l.LateMark? && !l.Cleanup?
  }

  /** How a label moves the phase of its task. */
  function NextPhase(p: Phase, l: Label): Option<Phase>
    requires OfSub(l)
  {
    match l
    case Spawn(_) => if p.Created? then Some(Spawned) else None
    case CancelUnstarted(_) => if p.Spawned? then Some(Dropped) else None
    case Enter(_) => if p.Spawned? then Some(Waiting) else None
    case Acquire(_) => if p.Waiting? then Some(Marking) else None
    case MarkLands(_) => if p.Marking? then Some(Working) else None
    case Stop(_, o) => if o.Terminal() && (p.Working? || (p.Marking? && o.Failed?)) then Some(Ending(o)) else None
    case Cancel(_) => if p.Waiting? || p.HoldsSlot() then Some(Ending(Failed(CANCELLED))) else None
    case Unregister(_) => if p.Ending? then Some(Reporting(p.outcome)) else None
    case WriteFinish(_) => if p.Reporting? then Some(Written(p.outcome)) else None
    case Emit(_) => if p.Written? then Some(Emitted) else None
    case ReportFails(_) => if p.Reporting? || p.Written? then Some(Lost) else None
  }

  function Holders(subs: map<TaskId, Sub>, conv: ConvId): set<TaskId> {
    set id | id in subs && subs[id].post.conv == conv && subs[id].phase.HoldsSlot()
  }

  /** What a label of a task does besides moving its phase. A cancelled task whose mark_running is still
      running in its thread leaves that update behind. */
  function Effect(s: State, l: Label): State
    requires OfSub(l) && l.id in s.subs && l.id in s.rows
    requires NextPhase(s.subs[l.id].phase, l).Some?
  {
    var sub := s.subs[l.id];
    var t := s.(subs := s.subs[l.id := sub.(phase := NextPhase(sub.phase, l).value)]);
    if l.MarkLands? then t.(rows := Marked(s.rows, l.id))
    else if l.Cancel? && sub.phase.Marking? then t.(lateMarks := s.lateMarks + {l.id})
    else if l.Unregister? then t.(running := Freed(s.running, sub.post))
    else if l.WriteFinish? then t.(rows := Finish(s.rows, l.id, sub.phase.outcome))
    else if l.Emit? then t.(reports := s.reports + [l.id])
    else t
  }

  predicate Enabled(s: State, l: Label)
    requires OfSub(l)
  {
    && l.id in s.subs && l.id in s.rows && NextPhase(s.subs[l.id].phase, l).Some?
    && (l.Acquire? ==> |Holders(s.subs, s.subs[l.id].post.conv)| < SUB_CONCURRENCY)
  }

  function Next(s: State, l: Label): Option<State> {
    match l
    case Check(post) =>
      if s.lock.Some? then None else Some(if post in s.running then s else s.(lock := Some(post)))
    case Create(id) =>
      if s.lock.None? || id in s.rows then None
      else
        var post := s.lock.value;
        Some(s.(rows := s.rows[id := Queued], running := s.running[post := id],
                subs := s.subs[id := Sub(post, Created)], lock := None))
    case LateMark(id) =>
      if id in s.lateMarks && id in s.rows
      then Some(s.(rows := Marked(s.rows, id), lateMarks := s.lateMarks - {id})) else None
    case Cleanup(ids) => Some(s.(rows := Cleaned(s.rows, ids)))
    case _ => if Enabled(s, l) then Some(Effect(s, l)) else None
  }

  predicate Initial(s: State) {
    s.running == map[] && s.subs == map[] && s.lock == None && s.lateMarks == {} && s.reports == []
  }

  // ------------------------------------------------------------ what every interleaving keeps

  /** A post is registered for a task exactly while that task has not begun its report. */
  ghost predicate RegistryOk(s: State) {
    && (forall p :: p in s.running ==>
          s.running[p] in s.subs && s.subs[s.running[p]].post == p && s.subs[s.running[p]].phase.Registered())
    && (forall id :: id in s.subs && s.subs[id].phase.Registered() ==>
          s.subs[id].post in s.running && s.running[s.subs[id].post] == id)
    && (s.lock.Some? ==> s.lock.value !in s.running)
  }

  ghost predicate StatusOk(s: State) {
    && (forall id :: id in s.subs ==> id in s.rows)
    && (forall id :: id in s.subs && s.subs[id].phase.Open() ==> !s.rows[id].Final())
    && (forall id :: id in s.lateMarks ==> id in s.subs && LateFits(s.subs[id].phase))
  }

  /** A late mark belongs to a task that was cancelled. */
  predicate LateFits(p: Phase) {
    match p
    case Ending(o) => o == Failed(CANCELLED)
    case Reporting(o) => o == Failed(CANCELLED)
    case Written(o) => o == Failed(CANCELLED)
    case Emitted => true
    case Lost => true
    case _ => false
  }

  ghost predicate SlotsOk(s: State) {
    forall conv :: |Holders(s.subs, conv)| <= SUB_CONCURRENCY
  }

  function CountOf(reports: seq<TaskId>, id: TaskId): nat {
    if reports == [] then 0
    else CountOf(reports[..|reports| - 1], id) + (if reports[|reports| - 1] == id then 1 else 0)
  }

  predicate HasEmitted(subs: map<TaskId, Sub>, id: TaskId) {
    id in subs && subs[id].phase.Emitted?
  }

  ghost predicate ReportsOk(s: State) {
    forall id :: CountOf(s.reports, id) == (if HasEmitted(s.subs, id) then 1 else 0)
  }

  ghost predicate Inv(s: State) {
    RegistryOk(s) && StatusOk(s) && SlotsOk(s) && ReportsOk(s)
  }

  lemma EffectKeepsRegistry(s: State, l: Label)
    requires RegistryOk(s) && OfSub(l) && Enabled(s, l)
    ensures RegistryOk(Effect(s, l))
  {
    hide Holders, FinishStatus;
  }

  lemma RegistryKeeps(s: State, l: Label)
    requires RegistryOk(s) && StatusOk(s) && Next(s, l).Some?
    ensures RegistryOk(Next(s, l).value)
  {
    hide Effect, NextPhase, Enabled;
    if OfSub(l) {
      EffectKeepsRegistry(s, l);
    }
  }

  lemma StatusKeeps(s: State, l: Label)
    requires StatusOk(s) && Next(s, l).Some?
    ensures StatusOk(Next(s, l).value)
  {
    hide Holders;
  }

  lemma HoldersMove(s: State, l: Label, conv: ConvId)
    requires OfSub(l) && Enabled(s, l)
    ensures var a, b := Holders(s.subs, conv), Holders(Effect(s, l).subs, conv);
      if l.Acquire? && s.subs[l.id].post.conv == conv then b == a + {l.id} else b <= a
  {
    hide FinishStatus;
  }

  lemma SlotsKeep(s: State, l: Label)
    requires SlotsOk(s) && Next(s, l).Some?
    ensures SlotsOk(Next(s, l).value)
  {
    hide Effect, NextPhase;
    var t := Next(s, l).value;
    forall conv ensures |Holders(t.subs, conv)| <= SUB_CONCURRENCY {
      var a, b := Holders(s.subs, conv), Holders(t.subs, conv);
      assert |a| <= SUB_CONCURRENCY;
      if OfSub(l) {
        HoldersMove(s, l, conv);
      }
      if !(OfSub(l) && l.Acquire? && s.subs[l.id].post.conv == conv) {
        assert b <= a;
        SubsetSize(b, a);
      }
    }
  }

  lemma ReportsKeep(s: State, l: Label)
    requires ReportsOk(s) && StatusOk(s) && Next(s, l).Some?
    ensures ReportsOk(Next(s, l).value)
  {
    hide Holders, FinishStatus;
    var t := Next(s, l).value;
    forall id ensures CountOf(t.reports, id) == (if HasEmitted(t.subs, id) then 1 else 0) {
      assert CountOf(s.reports, id) == (if HasEmitted(s.subs, id) then 1 else 0);
      if l.Emit? {
        assert t.reports[..|s.reports|] == s.reports;
      }
    }
  }

  lemma StepKeeps(s: State, l: Label)
    requires Inv(s) && Next(s, l).Some?
    ensures Inv(Next(s, l).value)
  {
    hide Next, RegistryOk, StatusOk, SlotsOk, ReportsOk;
    RegistryKeeps(s, l);
    StatusKeeps(s, l);
    SlotsKeep(s, l);
    ReportsKeep(s, l);
  }

  lemma InitialOk(s: State)
    requires Initial(s)
    ensures Inv(s)
  {
    forall conv ensures |Holders(s.subs, conv)| <= SUB_CONCURRENCY {
      assert Holders(s.subs, conv) == {};
    }
  }

  lemma ReachableOk(s: State, ls: seq<Label>)
    requires Initial(s) && IsRun(Next, s, ls)
    ensures Inv(End(Next, s, ls))
  {
    InitialOk(s);
    hide Inv, Next;
    forall t, l | Inv(t) && Next(t, l).Some? ensures Inv(Next(t, l).value) {
      StepKeeps(t, l);
    }
    InvariantHolds(Next, Inv, s, ls);
  }

  // ------------------------------------------------------------ the promises

  /** In every reachable state at most one task of a post has not begun its report, and it is the
      registered one. At most four tasks of a conversation hold a slot. */
  lemma OneTaskPerPost(s: State, ls: seq<Label>, id1: TaskId, id2: TaskId)
    requires Initial(s) && IsRun(Next, s, ls)
    requires var t := End(Next, s, ls);
      && id1 in t.subs && id2 in t.subs && t.subs[id1].post == t.subs[id2].post
      && t.subs[id1].phase.Registered() && t.subs[id2].phase.Registered()
    ensures id1 == id2 && |Holders(End(Next, s, ls).subs, End(Next, s, ls).subs[id1].post.conv)| <= 4
  {
    ReachableOk(s, ls);
    assert SlotsOk(End(Next, s, ls));
  }

  /** A report frees exactly its own registration, although it pops whatever the post holds. */
  lemma UnregisterIsOwn(s: State, ls: seq<Label>, id: TaskId)
    requires Initial(s) && IsRun(Next, s, ls) && Next(End(Next, s, ls), Unregister(id)).Some?
    ensures var t := End(Next, s, ls); var u := Next(t, Unregister(id)).value;
      && (forall p :: p in t.running && t.running[p] == id <==> p == t.subs[id].post)
      && (forall p :: p in u.running <==> p in t.running && t.running[p] != id)
      && (forall p :: p in u.running ==> u.running[p] == t.running[p])
  {
    ReachableOk(s, ls);
  }

  /** The status a report writes always lands: its guard never refuses the task's own finish. */
  lemma FinishLands(s: State, ls: seq<Label>, id: TaskId)
    requires Initial(s) && IsRun(Next, s, ls) && Next(End(Next, s, ls), WriteFinish(id)).Some?
    ensures var t := End(Next, s, ls);
      Next(t, WriteFinish(id)).value.rows[id] == t.subs[id].phase.outcome
  {
    ReachableOk(s, ls);
  }

  /** A task sends at most one task_done, and it has sent it exactly when its report went through. */
  lemma ReportedOnce(s: State, ls: seq<Label>, id: TaskId)
    requires Initial(s) && IsRun(Next, s, ls)
    ensures var t := End(Next, s, ls); CountOf(t.reports, id) == (if HasEmitted(t.subs, id) then 1 else 0)
  {
    ReachableOk(s, ls);
    assert ReportsOk(End(Next, s, ls));
  }

  /** A final status survives a step exactly when the step is not the late mark of a task cancelled while
      its mark_running was under way. */
  lemma FinalIsKept(s: State, l: Label, id: TaskId)
    requires Inv(s) && Next(s, l).Some? && id in s.rows && s.rows[id].Final()
    ensures id in Next(s, l).value.rows
    ensures Next(s, l).value.rows[id] == s.rows[id] <==> l != LateMark(id)
    ensures l == LateMark(id) ==> id in s.subs && LateFits(s.subs[id].phase)
  {
    hide Holders;
  }

  /** A task cancelled before its body ran keeps its post registered in every later state, so the role
      is never dispatched again in that conversation, and it never reports. */
  lemma DroppedBlocksItsPost(s: State, ls: seq<Label>, id: TaskId)
    requires Inv(s) && IsRun(Next, s, ls) && id in s.subs && s.subs[id].phase.Dropped?
    ensures var t := End(Next, s, ls); var post := s.subs[id].post;
      && post in t.running && t.running[post] == id
      && t.lock != Some(post) && CountOf(t.reports, id) == 0
  {
    hide Next;
    var post := s.subs[id].post;
    var inv := (t: State) => Inv(t) && id in t.subs && t.subs[id] == Sub(post, Dropped);
    forall t, l | inv(t) && Next(t, l).Some? ensures inv(Next(t, l).value) {
      StepKeeps(t, l);
      DroppedStays(t, l, id);
    }
    InvariantHolds(Next, inv, s, ls);
    assert ReportsOk(End(Next, s, ls));
  }

  lemma DroppedStays(t: State, l: Label, id: TaskId)
    requires Inv(t) && Next(t, l).Some? && id in t.subs && t.subs[id].phase.Dropped?
    ensures id in Next(t, l).value.subs && Next(t, l).value.subs[id] == t.subs[id]
  {
    hide Holders;
  }
}
