/** Any number of routing workers, their per-server mutexes and the SCP tasks they start, as a
    step system: what holds in every state of every interleaving. */
module LockProtocol {
  import opened Basics
  import opened Stores
  import TaskWait

  type Worker = nat
  type MutexId = nat

  /** Where a worker is in routeServerIP. It is at rest before and after a call. */
  datatype Place =
    | AtRest
    | Acquiring(target: ServerID, mutex: MutexId)    // has its mutex, waits to lock it
    | Critical(target: ServerID, mutex: MutexId)     // holds it, has not sent the PATCH
    | Waiting(target: ServerID, mutex: MutexId, task: nat)
    | Leaving(target: ServerID, mutex: MutexId)      // the deferred unlock is due

  /** A task this process caused at SCP. */
  datatype Task = Task(target: ServerID, state: TaskWait.TaskState)

  /** `serverLocks` is the sync.Map, `holder` the lock state of every mutex made so far. A worker
      that is not listed is at rest. */
  datatype State = State(serverLocks: map<ServerID, MutexId>, holder: map<MutexId, Option<Worker>>,
                         workers: map<Worker, Place>, tasks: seq<Task>) {
    function At(w: Worker): Place {
      if w in workers then workers[w] else AtRest
    }

    function Put(w: Worker, p: Place): State {
      this.(workers := workers[w := p])
    }
  }

  const INITIAL := State(map[], map[], map[], [])

  predicate Open(t: Task) {
    !TaskWait.Terminal(t.state)
  }

  /** How a critical section can end before there is a task to wait for: the listing failed or
      held no such address (nothing sent), the PATCH was refused, its answer was lost, or it
      was accepted without a task ID. The last two may leave a task behind all the same. */
  datatype Ending = NothingSent | Refused | Unheard(started: bool) | NoTaskId(started: bool)

  datatype Action =
    | LoadOrStore(w: Worker, target: ServerID)
    | Lock(w: Worker)
    | EndEarly(w: Worker, how: Ending)
    | Accepted(w: Worker)                            // the PATCH was accepted with a task ID
    | SeenDone(w: Worker)                            // a poll saw the task in a terminal state
    | GaveUpWaiting(w: Worker)                       // a poll failed, or the context was cancelled
    | Unlock(w: Worker)
    | Progress(task: nat, state: TaskWait.TaskState) // SCP moves a task on

  ghost predicate Enabled(s: State, a: Action) {
    match a
    case LoadOrStore(w, _) => s.At(w).AtRest?
    case Lock(w) => s.At(w).Acquiring? && s.At(w).mutex in s.holder && s.holder[s.At(w).mutex].None?
    case EndEarly(w, _) => s.At(w).Critical?
    case Accepted(w) => s.At(w).Critical?
    case SeenDone(w) => s.At(w).Waiting? && s.At(w).task < |s.tasks| && !Open(s.tasks[s.At(w).task])
    case GaveUpWaiting(w) => s.At(w).Waiting?
    case Unlock(w) => s.At(w).Leaving?
    case Progress(k, _) => k < |s.tasks| && Open(s.tasks[k])
  }

  /** A mutex that was never made before. */
  function NewMutex(s: State): MutexId {
    |s.serverLocks|
  }

  ghost function Next(s: State, a: Action): State
    requires Enabled(s, a)
  {
    match a
    case LoadOrStore(w, target) =>
      if target in s.serverLocks then s.Put(w, Acquiring(target, s.serverLocks[target]))
      else
        var m := NewMutex(s);
        s.(serverLocks := s.serverLocks[target := m], holder := s.holder[m := None]).Put(w, Acquiring(target, m))
    case Lock(w) =>
      var p := s.At(w);
      s.(holder := s.holder[p.mutex := Some(w)]).Put(w, Critical(p.target, p.mutex))
    case EndEarly(w, how) =>
      var p := s.At(w);
      var started := (how.Unheard? || how.NoTaskId?) && how.started;
      s.(tasks := if started then s.tasks + [Task(p.target, TaskWait.PENDING)] else s.tasks)
       .Put(w, Leaving(p.target, p.mutex))
    case Accepted(w) =>
      var p := s.At(w);
      s.(tasks := s.tasks + [Task(p.target, TaskWait.PENDING)]).Put(w, Waiting(p.target, p.mutex, |s.tasks|))
    case SeenDone(w) => s.Put(w, Leaving(s.At(w).target, s.At(w).mutex))
    case GaveUpWaiting(w) => s.Put(w, Leaving(s.At(w).target, s.At(w).mutex))
    case Unlock(w) => s.(holder := s.holder[s.At(w).mutex := None]).Put(w, AtRest)
    case Progress(k, state) => s.(tasks := s.tasks[k := s.tasks[k].(state := state)])
  }

  ghost predicate Possible(s: State, actions: seq<Action>)
    decreases |actions|
  {
    actions == [] || (Enabled(s, actions[0]) && Possible(Next(s, actions[0]), actions[1..]))
  }

  ghost function After(s: State, actions: seq<Action>): State
    requires Possible(s, actions)
    decreases |actions|
  {
    if actions == [] then s else After(Next(s, actions[0]), actions[1..])
  }

  /******* Lock discipline, whatever happens *******/

  /** The worker has the lock of its target. */
  predicate Inside(p: Place) {
    p.Critical? || p.Waiting? || p.Leaving?
  }

  /** Every stored mutex was made once, for one server ID. */
  ghost predicate Stored(s: State) {
    && (forall t :: t in s.serverLocks ==> s.serverLocks[t] in s.holder)
    && (forall m :: m in s.holder ==> m < |s.serverLocks|)
    && (forall t, u :: t in s.serverLocks && u in s.serverLocks && s.serverLocks[t] == s.serverLocks[u] ==> t == u)
  }

  /** A worker that has a mutex has the one stored for its target, and holds it when inside. */
  ghost predicate WorkerOk(s: State, w: Worker) {
    var p := s.At(w);
    !p.AtRest? ==>
      && p.target in s.serverLocks && s.serverLocks[p.target] == p.mutex && p.mutex in s.holder
      && (Inside(p) ==> s.holder[p.mutex] == Some(w))
  }

  /** A mutex that is held is held by a worker inside. */
  ghost predicate HolderOk(s: State, m: MutexId) {
    m in s.holder && s.holder[m].Some? ==> Inside(s.At(s.holder[m].value)) && s.At(s.holder[m].value).mutex == m
  }

  ghost predicate Disciplined(s: State) {
    && Stored(s)
    && (forall w: Worker :: WorkerOk(s, w))
    && (forall m: MutexId :: HolderOk(s, m))
  }

  /** Where the acting worker is afterwards; the others stay where they are. */
  lemma OthersStay(s: State, a: Action, w: Worker)
    requires Enabled(s, a) && (a.Progress? || a.w != w)
    ensures Next(s, a).At(w) == s.At(w)
  {
  }

  lemma StepIsStored(s: State, a: Action)
    requires Disciplined(s) && Enabled(s, a)
    ensures Stored(Next(s, a)) && LocksKept(s, Next(s, a))
  {
    if a.LoadOrStore? && a.target !in s.serverLocks {
      assert |s.serverLocks[a.target := NewMutex(s)]| == |s.serverLocks| + 1;
    } else if a.Lock? {
      assert WorkerOk(s, a.w);
    } else if a.Unlock? {
      assert WorkerOk(s, a.w);
    }
  }

  lemma StepIsDisciplined(s: State, a: Action)
    requires Disciplined(s) && Enabled(s, a)
    ensures Disciplined(Next(s, a))
  {
    var s' := Next(s, a);
    StepIsStored(s, a);
    forall w: Worker
      ensures WorkerOk(s', w)
    {
      assert WorkerOk(s, w);
      if a.Progress? || a.w != w {
        OthersStay(s, a, w);
        if !a.Progress? {
          assert WorkerOk(s, a.w);
        }
      }
    }
    forall m: MutexId
      ensures HolderOk(s', m)
    {
      assert HolderOk(s, m);
      if m in s.holder && s.holder[m].Some? {
        var v := s.holder[m].value;
        if a.Progress? || a.w != v {
          OthersStay(s, a, v);
        }
        if !a.Progress? {
          assert WorkerOk(s, a.w);
        }
      }
    }
  }

  /** One mutex per server ID, forever. */
  ghost predicate LocksKept(s: State, s': State) {
    forall t :: t in s.serverLocks ==> t in s'.serverLocks && s'.serverLocks[t] == s.serverLocks[t]
  }

  lemma {:induction false} RunIsDisciplined(s: State, actions: seq<Action>)
    requires Disciplined(s) && Possible(s, actions)
    ensures Disciplined(After(s, actions)) && LocksKept(s, After(s, actions))
    ensures Tracked(s) ==> Tracked(After(s, actions))
    decreases |actions|
  {
    hide Disciplined, Tracked, Enabled, Next;
    if actions != [] {
      if Tracked(s) {
        StepIsTracked(s, actions[0]);
      }
      StepIsDisciplined(s, actions[0]);
      StepIsStored(s, actions[0]);
      RunIsDisciplined(Next(s, actions[0]), actions[1..]);
    }
  }

  /** A worker waits for another: it wants the mutex the other holds. */
  ghost predicate WaitsFor(s: State, w: Worker, v: Worker) {
    s.At(w).Acquiring? && s.At(w).mutex in s.holder && s.holder[s.At(w).mutex] == Some(v)
  }

  /** The mutex is that of the worker's target, and the worker is inside; as it is at one place
      only, it holds no other. */
  ghost predicate HoldsOnly(s: State, w: Worker, m: MutexId) {
    && Inside(s.At(w)) && s.At(w).mutex == m
    && s.At(w).target in s.serverLocks && s.serverLocks[s.At(w).target] == m
  }

  /** The next own step of a worker, if it is not waiting for a lock or a task. */
  ghost predicate CanStep(s: State, w: Worker) {
    exists a: Action :: !a.Progress? && a.w == w && Enabled(s, a)
  }

  /** One mutex per server ID, forever: what any part of a run has stored is there at the end. */
  lemma LocksNeverReplaced(actions: seq<Action>, n: nat)
    requires Possible(INITIAL, actions) && n <= |actions|
    ensures Possible(INITIAL, actions[..n]) && LocksKept(After(INITIAL, actions[..n]), After(INITIAL, actions))
  {
    assert Disciplined(INITIAL);
    SplitRun(INITIAL, actions, n);
    RunIsDisciplined(INITIAL, actions[..n]);
    RunIsDisciplined(After(INITIAL, actions[..n]), actions[n..]);
  }

  /** Lock discipline over all runs, faults included: at most one worker is inside per target; a worker inside holds the lock of its
      target and no other; the holder of a lock is never itself waiting for one, so that no
      two workers ever wait in a circle; and the holder of a lock that is waited for can
      always take a step of its own. */
  lemma LockDiscipline(actions: seq<Action>)
    requires Possible(INITIAL, actions)
    ensures var s := After(INITIAL, actions);
            && (forall v: Worker, w: Worker :: Inside(s.At(v)) && Inside(s.At(w)) && s.At(v).target == s.At(w).target ==> v == w)
            && (forall m: MutexId, w: Worker :: m in s.holder && s.holder[m] == Some(w) ==> HoldsOnly(s, w, m))
            && (forall v: Worker, w: Worker :: WaitsFor(s, w, v) ==> v != w && CanStep(s, v) && !s.At(v).Acquiring?)
  {
    var s := After(INITIAL, actions);
    assert Disciplined(INITIAL);
    RunIsDisciplined(INITIAL, actions);
    forall v: Worker, w: Worker | Inside(s.At(v)) && Inside(s.At(w)) && s.At(v).target == s.At(w).target
      ensures v == w
    {
      assert WorkerOk(s, v) && WorkerOk(s, w);
    }
    forall m: MutexId, w: Worker | m in s.holder && s.holder[m] == Some(w)
      ensures HoldsOnly(s, w, m)
    {
      assert HolderOk(s, m) && WorkerOk(s, w);
    }
    forall v: Worker, w: Worker | WaitsFor(s, w, v)
      ensures CanStep(s, v) && !s.At(v).Acquiring?
    {
      assert HolderOk(s, s.At(w).mutex);
      InsideCanStep(s, v);
    }
  }

  lemma InsideCanStep(s: State, w: Worker)
    requires Inside(s.At(w))
    ensures CanStep(s, w)
  {
    match s.At(w) {
      case Critical(_, _) => assert Enabled(s, EndEarly(w, NothingSent));
      case Waiting(_, _, _) => assert Enabled(s, GaveUpWaiting(w));
      case Leaving(_, _) => assert Enabled(s, Unlock(w));
    }
  }

  lemma {:induction false} SplitRun(s: State, actions: seq<Action>, n: nat)
    requires n <= |actions| && Possible(s, actions)
    ensures Possible(s, actions[..n]) && Possible(After(s, actions[..n]), actions[n..])
    ensures After(After(s, actions[..n]), actions[n..]) == After(s, actions)
    decreases n
  {
    hide Enabled, Next;
    if n == 0 {
      assert actions[0..] == actions;
    } else {
      SplitRun(Next(s, actions[0]), actions[1..], n - 1);
      assert actions[..n][1..] == actions[1..][..n - 1];
      assert actions[1..][n - 1..] == actions[n..];
    }
  }

  /******* No overlapping tasks *******/

  /** Every PATCH that SCP accepts comes with a task ID, and every wait ends on a terminal state. */
  predicate Tame(a: Action) {
    match a
    case EndEarly(_, how) => how.NothingSent? || how.Refused? || !how.started
    case GaveUpWaiting(_) => false
    case _ => true
  }

  ghost predicate WaitsOn(s: State, w: Worker, k: int) {
    0 <= k < |s.tasks| && s.At(w).Waiting? && s.At(w).task == k && s.At(w).target == s.tasks[k].target
  }

  /** Every open task is being waited for, under its target's lock. */
  ghost predicate Watched(s: State) {
    && (forall w: Worker :: s.At(w).Waiting? ==> s.At(w).task < |s.tasks|)
    && (forall k :: 0 <= k < |s.tasks| && Open(s.tasks[k]) ==> exists w: Worker :: WaitsOn(s, w, k))
  }

  lemma TameStepIsWatched(s: State, a: Action)
    requires Disciplined(s) && Watched(s) && Enabled(s, a) && Tame(a)
    ensures Watched(Next(s, a))
  {
    var s' := Next(s, a);
    forall w: Worker | s'.At(w).Waiting?
      ensures s'.At(w).task < |s'.tasks|
    {
      if a.Progress? || a.w != w {
        OthersStay(s, a, w);
      }
    }
    forall k | 0 <= k < |s'.tasks| && Open(s'.tasks[k])
      ensures exists w: Worker :: WaitsOn(s', w, k)
    {
      if k < |s.tasks| {
        assert Open(s.tasks[k]);
        var w: Worker :| WaitsOn(s, w, k);
        assert WaitsOn(s, w, k);
        if a.Progress? || a.w != w {
          OthersStay(s, a, w);
        }
        assert WaitsOn(s', w, k);
      } else {
        assert WaitsOn(s', a.w, k);
      }
    }
  }

  /** The PATCH of a worker: it is about to be sent, or its answer is in. */
  predicate SendsPatch(a: Action) {
    a.Accepted? || (a.EndEarly? && !a.how.NothingSent?)
  }

  /** No task this process caused for the target is still open. */
  ghost predicate NoneOpen(s: State, target: ServerID) {
    forall k :: 0 <= k < |s.tasks| && s.tasks[k].target == target ==> !Open(s.tasks[k])
  }

  ghost predicate NeverOverlaps(s: State, actions: seq<Action>)
    requires Possible(s, actions)
    decreases |actions|
  {
    actions != [] ==>
      && (SendsPatch(actions[0]) ==> NoneOpen(s, s.At(actions[0].w).target))
      && NeverOverlaps(Next(s, actions[0]), actions[1..])
  }

  lemma {:induction false} TameRunNeverOverlaps(s: State, actions: seq<Action>)
    requires Disciplined(s) && Watched(s) && Possible(s, actions)
    requires forall a :: a in actions ==> Tame(a)
    ensures NeverOverlaps(s, actions)
    decreases |actions|
  {
    if actions != [] {
      var a := actions[0];
      assert a in actions;
      if SendsPatch(a) {
        var target := s.At(a.w).target;
        forall k | 0 <= k < |s.tasks| && s.tasks[k].target == target
          ensures !Open(s.tasks[k])
        {
          assert WorkerOk(s, a.w);
          forall v: Worker
            ensures s.At(v).Waiting? && s.At(v).target == target ==> v == a.w
          {
            assert WorkerOk(s, v);
          }
        }
      }
      StepIsDisciplined(s, a);
      TameStepIsWatched(s, a);
      TameRunNeverOverlaps(Next(s, a), actions[1..]);
    }
  }

  /** No overlapping tasks: in every interleaving of any number of workers in which every
      accepted PATCH yields a task ID and every wait ends on a terminal state, no PATCH for a
      server is sent while an earlier task for it is open. */
  lemma NoOverlappingTasks(actions: seq<Action>)
    requires Possible(INITIAL, actions) && forall a :: a in actions ==> Tame(a)
    ensures NeverOverlaps(INITIAL, actions)
  {
    assert Disciplined(INITIAL) && Watched(INITIAL);
    TameRunNeverOverlaps(INITIAL, actions);
  }

  /** One more action in front of a run. */
  lemma InFront(s: State, a: Action, rest: seq<Action>)
    requires Enabled(s, a) && Possible(Next(s, a), rest)
    ensures Possible(s, [a] + rest) && After(s, [a] + rest) == After(Next(s, a), rest)
    ensures !NeverOverlaps(Next(s, a), rest) ==> !NeverOverlaps(s, [a] + rest)
  {
    assert ([a] + rest)[1..] == rest;
  }

  /** With an open task of a target and its lock free, the next worker's PATCH overlaps. */
  lemma NextOverlaps(s: State, target: ServerID, w: Worker)
    requires target in s.serverLocks && s.serverLocks[target] in s.holder && s.holder[s.serverLocks[target]].None?
    requires s.At(w).AtRest? && !NoneOpen(s, target)
    ensures var next := [LoadOrStore(w, target)] + ([Lock(w)] + [Accepted(w)]);
            Possible(s, next) && !NeverOverlaps(s, next)
  {
    var s1 := Next(s, LoadOrStore(w, target));
    var s2 := Next(s1, Lock(w));
    assert s2.tasks == s.tasks && s2.At(w) == Critical(target, s.serverLocks[target]);
    assert Possible(s2, [Accepted(w)]) && !NeverOverlaps(s2, [Accepted(w)]);
    InFront(s1, Lock(w), [Accepted(w)]);
    InFront(s, LoadOrStore(w, target), [Lock(w)] + [Accepted(w)]);
  }

  /******* When the next tasks may overlap *******/

  /** What every step keeps besides the locks: each task's target has its mutex, and a worker that
      waits waits for a task of its own target. */
  ghost predicate Tracked(s: State) {
    && (forall k :: 0 <= k < |s.tasks| ==> s.tasks[k].target in s.serverLocks)
    && (forall w: Worker :: s.At(w).Waiting? ==>
          s.At(w).task < |s.tasks| && s.tasks[s.At(w).task].target == s.At(w).target)
  }

  lemma StepIsTracked(s: State, a: Action)
    requires Disciplined(s) && Tracked(s) && Enabled(s, a)
    ensures Tracked(Next(s, a))
  {
    var s' := Next(s, a);
    if !a.Progress? {
      assert WorkerOk(s, a.w);
    }
    forall w: Worker | s'.At(w).Waiting?
      ensures s'.At(w).task < |s'.tasks| && s'.tasks[s'.At(w).task].target == s'.At(w).target
    {
      if a.Progress? || a.w != w {
        OthersStay(s, a, w);
        assert s.At(w).Waiting?;
      }
    }
  }

  ghost predicate AllTame(actions: seq<Action>) {
    forall a :: a in actions ==> Tame(a)
  }

  /** A tame run from here on overlaps tasks. */
  ghost predicate MayOverlap(s: State) {
    exists actions :: Possible(s, actions) && AllTame(actions) && !NeverOverlaps(s, actions)
  }

  lemma MayOverlapEarlier(s: State, a: Action)
    requires Enabled(s, a) && Tame(a) && MayOverlap(Next(s, a))
    ensures MayOverlap(s)
  {
    hide Possible, NeverOverlaps;
    var rest :| Possible(Next(s, a), rest) && AllTame(rest) && !NeverOverlaps(Next(s, a), rest);
    InFront(s, a, rest);
    assert AllTame([a] + rest);
  }

  /** Somebody is always at rest. */
  lemma RestingWorker(s: State) returns (w: Worker)
    ensures w !in s.workers
  {
    w := FreshWorker(s.workers.Keys);
  }

  lemma {:induction false} FreshWorker(taken: set<Worker>) returns (w: Worker)
    ensures w !in taken && forall v :: v in taken ==> v < w
    decreases |taken|
  {
    if taken == {} {
      w := 0;
    } else {
      var v :| v in taken;
      var u := FreshWorker(taken - {v});
      w := if u > v then u else v + 1;
      assert forall x :: x in taken ==> x == v || x in taken - {v};
    }
  }

  /** How far the worker inside a target is from leaving. */
  ghost function StepsLeft(s: State, w: Worker): nat {
    match s.At(w)
    case Waiting(_, _, k) => if k < |s.tasks| && Open(s.tasks[k]) then 3 else 2
    case Leaving(_, _) => 1
    case _ => 0
  }

  /** An open task that nobody waits for. */
  ghost predicate Forgotten(s: State, k: int) {
    0 <= k < |s.tasks| && Open(s.tasks[k]) && forall w: Worker :: !WaitsOn(s, w, k)
  }

  /** While an open task is forgotten, a tame run can overlap with it: whoever is inside its target
      sends its PATCH or leaves, and then the next worker sends one. */
  lemma ForgottenMayOverlap(s: State, k: int)
    requires Disciplined(s) && Tracked(s) && Forgotten(s, k)
    ensures MayOverlap(s)
    decreases if HolderOf(s, k).Some? then StepsLeft(s, HolderOf(s, k).value) else 0
  {
    hide Possible, NeverOverlaps;
    var target := s.tasks[k].target;
    var mutex := s.serverLocks[target];
    assert !NoneOpen(s, target);
    if s.holder[mutex].None? {
      var w := RestingWorker(s);
      NextOverlaps(s, target, w);
      assert AllTame([LoadOrStore(w, target)] + ([Lock(w)] + [Accepted(w)]));
    } else {
      var v := s.holder[mutex].value;
      assert HolderOk(s, mutex) && WorkerOk(s, v);
      assert s.At(v).target == target;
      if s.At(v).Critical? {
        PatchOverlaps(s, v);
      } else {
        var a := if s.At(v).Leaving? then Unlock(v)
                 else if Open(s.tasks[s.At(v).task]) then Progress(s.At(v).task, TaskWait.FINISHED)
                 else SeenDone(v);
        StaysForgotten(s, a, k);
        assert s.At(v).Waiting? ==> s.At(v).task != k by {
          assert !WaitsOn(s, v, k);
        }
        ForgottenMayOverlap(Next(s, a), k);
        MayOverlapEarlier(s, a);
      }
    }
  }

  /** Who holds the lock of a task's target. */
  ghost function HolderOf(s: State, k: int): Option<Worker>
    requires Disciplined(s) && Tracked(s) && 0 <= k < |s.tasks|
  {
    s.holder[s.serverLocks[s.tasks[k].target]]
  }

  lemma PatchOverlaps(s: State, w: Worker)
    requires s.At(w).Critical? && !NoneOpen(s, s.At(w).target)
    ensures MayOverlap(s)
  {
    var run := [Accepted(w)];
    assert run[0] == Accepted(w) && run[1..] == [];
    assert Enabled(s, run[0]) && Possible(Next(s, run[0]), run[1..]);
    assert Possible(s, run);
    assert SendsPatch(run[0]);
    assert !NeverOverlaps(s, run) && AllTame(run);
  }

  lemma StaysForgotten(s: State, a: Action, k: int)
    requires Disciplined(s) && Tracked(s) && Forgotten(s, k) && Enabled(s, a)
    requires a.Unlock? || a.SeenDone? || (a.Progress? && a.task != k)
    ensures Disciplined(Next(s, a)) && Tracked(Next(s, a)) && Forgotten(Next(s, a), k)
  {
    StepIsDisciplined(s, a);
    StepIsTracked(s, a);
    forall w: Worker
      ensures !WaitsOn(Next(s, a), w, k)
    {
      assert !WaitsOn(s, w, k);
      if a.Progress? || a.w != w {
        OthersStay(s, a, w);
      }
    }
  }

  /** When the code keeps the promise that requests for one server never overlap: from a reachable
      state, every tame run keeps it exactly if every open task of this process is being waited
      for. With all workers at rest that means exactly if no task is open. */
  lemma NoOverlapIffWatched(past: seq<Action>)
    requires Possible(INITIAL, past)
    ensures var s := After(INITIAL, past);
            && (!MayOverlap(s) <==> Watched(s))
            && ((forall w: Worker :: s.At(w).AtRest?) ==>
                  (Watched(s) <==> forall k :: 0 <= k < |s.tasks| ==> !Open(s.tasks[k])))
  {
    hide Possible, NeverOverlaps;
    var s := After(INITIAL, past);
    assert Disciplined(INITIAL) && Tracked(INITIAL);
    RunIsDisciplined(INITIAL, past);
    if Watched(s) {
      forall actions | Possible(s, actions) && AllTame(actions)
        ensures NeverOverlaps(s, actions)
      {
        TameRunNeverOverlaps(s, actions);
      }
    } else {
      var k :| 0 <= k < |s.tasks| && Open(s.tasks[k]) && !exists w: Worker :: WaitsOn(s, w, k);
      ForgottenMayOverlap(s, k);
    }
  }

  /** Which steps forget a task: one that ends early while SCP has started a task, and one that
      gives up a wait whose task is open. Every other step keeps all open tasks waited for. */
  lemma ForgetsIff(s: State, a: Action)
    requires Disciplined(s) && Tracked(s) && Watched(s) && Enabled(s, a)
    ensures Watched(Next(s, a)) <==>
            && !(a.EndEarly? && (a.how.Unheard? || a.how.NoTaskId?) && a.how.started)
            && !(a.GaveUpWaiting? && Open(s.tasks[s.At(a.w).task]))
  {
    var s' := Next(s, a);
    if Tame(a) {
      TameStepIsWatched(s, a);
    } else if a.EndEarly? {
      assert Open(s'.tasks[|s.tasks|]);
      forall w: Worker
        ensures !WaitsOn(s', w, |s.tasks|)
      {
        if w != a.w {
          OthersStay(s, a, w);
        }
      }
    } else {
      GivingUpForgetsIff(s, a);
    }
  }

  lemma GivingUpForgetsIff(s: State, a: Action)
    requires Disciplined(s) && Tracked(s) && Watched(s) && Enabled(s, a) && a.GaveUpWaiting?
    ensures Watched(Next(s, a)) <==> !Open(s.tasks[s.At(a.w).task])
  {
    var s' := Next(s, a);
    var task := s.At(a.w).task;
    forall w: Worker
      ensures w != a.w ==> s'.At(w) == s.At(w)
      ensures s.At(w).Waiting? && s.At(w).task == task ==> w == a.w
    {
      assert WorkerOk(s, w) && WorkerOk(s, a.w);
      if w != a.w {
        OthersStay(s, a, w);
      }
    }
    if Open(s.tasks[task]) {
      assert forall w: Worker :: !WaitsOn(s', w, task);
    } else {
      forall k | 0 <= k < |s'.tasks| && Open(s'.tasks[k])
        ensures exists w: Worker :: WaitsOn(s', w, k)
      {
        var w: Worker :| WaitsOn(s, w, k);
        assert WaitsOn(s, w, k);
        assert WaitsOn(s', w, k);
      }
    }
  }

  /** Worker 0 inside on server 7, with the only mutex there is, and one open task or none. */
  function Alone(place: Place, started: bool): State {
    State(map[7 := 0], map[0 := if Inside(place) then Some(0) else None], map[0 := place],
          if started then [Task(7, TaskWait.PENDING)] else [])
  }

  /** Worker 0 gets to its critical section; what then goes wrong is up to the rest. */
  lemma Enter(rest: seq<Action>)
    requires Possible(Alone(Critical(7, 0), false), rest) && !NeverOverlaps(Alone(Critical(7, 0), false), rest)
    ensures var all := [LoadOrStore(0, 7)] + ([Lock(0)] + rest);
            Possible(INITIAL, all) && !NeverOverlaps(INITIAL, all)
  {
    var s1 := Next(INITIAL, LoadOrStore(0, 7));
    assert s1 == Alone(Acquiring(7, 0), false);
    assert Next(s1, Lock(0)) == Alone(Critical(7, 0), false);
    InFront(s1, Lock(0), rest);
    InFront(INITIAL, LoadOrStore(0, 7), [Lock(0)] + rest);
  }

  /** Worker 1's turn, after worker 0 has left. */
  function Follow(): seq<Action> {
    [Unlock(0)] + ([LoadOrStore(1, 7)] + ([Lock(1)] + [Accepted(1)]))
  }

  /** Leaving with the task open lets the next worker's PATCH overlap with it. */
  lemma LeaveOpen()
    ensures Possible(Alone(Leaving(7, 0), true), Follow()) && !NeverOverlaps(Alone(Leaving(7, 0), true), Follow())
  {
    var s := Alone(Leaving(7, 0), true);
    assert Next(s, Unlock(0)) == Alone(AtRest, true);
    assert Alone(AtRest, true).tasks[0].target == 7;
    NextOverlaps(Alone(AtRest, true), 7, 1);
    InFront(s, Unlock(0), [LoadOrStore(1, 7)] + ([Lock(1)] + [Accepted(1)]));
  }

  lemma GivingUpRun()
    ensures var all := [LoadOrStore(0, 7)] + ([Lock(0)] + ([Accepted(0)] + ([GaveUpWaiting(0)] + Follow())));
            Possible(INITIAL, all) && !NeverOverlaps(INITIAL, all)
  {
    hide Possible, NeverOverlaps, Follow;
    LeaveOpen();
    var s := Alone(Critical(7, 0), false);
    var waiting := Alone(Waiting(7, 0, 0), true);
    assert Next(s, Accepted(0)) == waiting;
    assert Next(waiting, GaveUpWaiting(0)) == Alone(Leaving(7, 0), true);
    InFront(waiting, GaveUpWaiting(0), Follow());
    InFront(s, Accepted(0), [GaveUpWaiting(0)] + Follow());
    Enter([Accepted(0)] + ([GaveUpWaiting(0)] + Follow()));
  }

  lemma MissingTaskIdRun()
    ensures var all := [LoadOrStore(0, 7)] + ([Lock(0)] + ([EndEarly(0, NoTaskId(true))] + Follow()));
            Possible(INITIAL, all) && !NeverOverlaps(INITIAL, all)
  {
    hide Possible, NeverOverlaps, Follow;
    LeaveOpen();
    var s := Alone(Critical(7, 0), false);
    assert Next(s, EndEarly(0, NoTaskId(true))) == Alone(Leaving(7, 0), true);
    InFront(s, EndEarly(0, NoTaskId(true)), Follow());
    Enter([EndEarly(0, NoTaskId(true))] + Follow());
  }

  /** The condition on the waits is needed: a wait that is given up releases the lock while the
      task is open, and the next worker's PATCH overlaps with it. */
  lemma GivingUpOverlaps()
    ensures exists actions: seq<Action> ::
              && Possible(INITIAL, actions)
              && (forall a: Action :: a in actions && !a.GaveUpWaiting? ==> Tame(a))
              && !NeverOverlaps(INITIAL, actions)
  {
    hide Possible, NeverOverlaps;
    GivingUpRun();
    assert [LoadOrStore(0, 7)] + ([Lock(0)] + ([Accepted(0)] + ([GaveUpWaiting(0)] + Follow()))) ==
           [LoadOrStore(0, 7), Lock(0), Accepted(0), GaveUpWaiting(0), Unlock(0), LoadOrStore(1, 7), Lock(1), Accepted(1)];
  }

  /** So is the condition on the task IDs. */
  lemma MissingTaskIdOverlaps()
    ensures exists actions: seq<Action> ::
              && Possible(INITIAL, actions)
              && (forall a: Action :: a in actions && !(a.EndEarly? && a.how.NoTaskId?) ==> Tame(a))
              && !NeverOverlaps(INITIAL, actions)
  {
    hide Possible, NeverOverlaps;
    MissingTaskIdRun();
    assert [LoadOrStore(0, 7)] + ([Lock(0)] + ([EndEarly(0, NoTaskId(true))] + Follow())) ==
           [LoadOrStore(0, 7), Lock(0), EndEarly(0, NoTaskId(true)), Unlock(0), LoadOrStore(1, 7), Lock(1), Accepted(1)];
  }
}
