/** One routing request, as computed by nc/cloud.go, is a run of one worker of the lock protocol. */
module RouteRuns {
  import opened Basics
  import opened Stores
  import opened CloudSpec
  import opened LockProtocol
  import RoutingLaws
  import TaskWait

  /** What a worker does between its PATCH and its unlock, by the status of the answer; `k` is
      the number the task gets, if there is one. */
  ghost function PatchSteps(env: Env, t: nat, w: Worker, k: nat): seq<Action> {
    match ReplyOf(env, t).status
    case NeverArrived => [EndEarly(w, Unheard(false))]
    case NoAnswer => [EndEarly(w, Unheard(true))]
    case NotAccepted => [EndEarly(w, Refused)]
    case AcceptedWithoutTask => [EndEarly(w, NoTaskId(true))]
    case AcceptedWithTask =>
      var seen := TaskWait.EndState(RoundsOf(env, t));
      [Accepted(w)] + (if seen.Some? then [Progress(k, seen.value)] + [SeenDone(w)] else [GaveUpWaiting(w)])
  }

  /** The tasks those steps leave at SCP. */
  ghost function NewTasks(env: Env, t: nat, target: ServerID): seq<Task> {
    match ReplyOf(env, t).status
    case NeverArrived => []
    case NoAnswer => [Task(target, TaskWait.PENDING)]
    case NotAccepted => []
    case AcceptedWithoutTask => [Task(target, TaskWait.PENDING)]
    case AcceptedWithTask =>
      var seen := TaskWait.EndState(RoundsOf(env, t));
      [Task(target, if seen.Some? then seen.value else TaskWait.PENDING)]
  }

  ghost function RouteSteps(env: Env, r: Remote, s: State, w: Worker, addr: Addr, target: ServerID): seq<Action> {
    [LoadOrStore(w, target)] + ([Lock(w)] + (CriticalSteps(env, r, w, addr, |s.tasks|) + [Unlock(w)]))
  }

  ghost function CriticalSteps(env: Env, r: Remote, w: Worker, addr: Addr, k: nat): seq<Action> {
    if RoutingLaws.Finds(env, r, addr) then PatchSteps(env, r.clock + 1, w, k) else [EndEarly(w, NothingSent)]
  }

  lemma Only(s: State, a: Action)
    requires Enabled(s, a)
    ensures Possible(s, [a]) && After(s, [a]) == Next(s, a)
  {
    assert [a][1..] == [];
  }

  lemma {:induction false} Back(s: State, these: seq<Action>, a: Action)
    requires Possible(s, these) && Enabled(After(s, these), a)
    ensures Possible(s, these + [a]) && After(s, these + [a]) == Next(After(s, these), a)
    decreases |these|
  {
    if these == [] {
      Only(s, a);
      assert these + [a] == [a];
    } else {
      assert (these + [a])[1..] == these[1..] + [a];
      Back(Next(s, these[0]), these[1..], a);
    }
  }

  lemma WaitIsARun(s: State, w: Worker, target: ServerID, mutex: MutexId, seen: Option<TaskWait.TaskState>)
    requires s.At(w) == Critical(target, mutex)
    ensures var k := |s.tasks|;
            var steps := [Accepted(w)] + (if seen.Some? then [Progress(k, seen.value)] + [SeenDone(w)] else [GaveUpWaiting(w)]);
            var task := Task(target, if seen.Some? then seen.value else TaskWait.PENDING);
            seen.None? || TaskWait.Terminal(seen.value) ==>
              && Possible(s, steps)
              && After(s, steps) == s.(tasks := s.tasks + [task]).Put(w, Leaving(target, mutex))
  {
    hide Possible, After;
    var k := |s.tasks|;
    var s1 := s.(tasks := s.tasks + [Task(target, TaskWait.PENDING)]).Put(w, Waiting(target, mutex, k));
    assert Next(s, Accepted(w)) == s1;
    if seen.None? {
      assert Next(s1, GaveUpWaiting(w)).workers == s.workers[w := Leaving(target, mutex)];
      Only(s1, GaveUpWaiting(w));
      InFront(s, Accepted(w), [GaveUpWaiting(w)]);
    } else if TaskWait.Terminal(seen.value) {
      var s2 := s.(tasks := s.tasks + [Task(target, seen.value)]).Put(w, Waiting(target, mutex, k));
      assert Next(s1, Progress(k, seen.value)) == s2;
      assert Next(s2, SeenDone(w)).workers == s.workers[w := Leaving(target, mutex)];
      Only(s2, SeenDone(w));
      InFront(s1, Progress(k, seen.value), [SeenDone(w)]);
      InFront(s, Accepted(w), [Progress(k, seen.value)] + [SeenDone(w)]);
    }
  }

  lemma PatchIsARun(env: Env, t: nat, s: State, w: Worker, target: ServerID, mutex: MutexId)
    requires s.At(w) == Critical(target, mutex)
    ensures var steps := PatchSteps(env, t, w, |s.tasks|);
            && Possible(s, steps)
            && After(s, steps) == s.(tasks := s.tasks + NewTasks(env, t, target)).Put(w, Leaving(target, mutex))
  {
    hide Possible, After;
    if ReplyOf(env, t).status.AcceptedWithTask? {
      WaitIsARun(s, w, target, mutex, TaskWait.EndState(RoundsOf(env, t)));
    } else {
      Only(s, PatchSteps(env, t, w, |s.tasks|)[0]);
      assert s.tasks + [] == s.tasks;
    }
  }

  lemma CriticalIsARun(env: Env, r: Remote, s: State, w: Worker, addr: Addr, target: ServerID, mutex: MutexId)
    requires s.At(w) == Critical(target, mutex)
    ensures var steps := CriticalSteps(env, r, w, addr, |s.tasks|);
            && Possible(s, steps)
            && After(s, steps) == s.(tasks := s.tasks + (if RoutingLaws.Finds(env, r, addr) then NewTasks(env, r.clock + 1, target) else []))
                                   .Put(w, Leaving(target, mutex))
  {
    hide Possible, After, PatchSteps, NewTasks;
    if RoutingLaws.Finds(env, r, addr) {
      PatchIsARun(env, r.clock + 1, s, w, target, mutex);
    } else {
      Only(s, EndEarly(w, NothingSent));
      assert s.tasks + [] == s.tasks;
    }
  }

  /** Where the worker stands once it has its lock. */
  ghost function Entered(s: State, w: Worker, target: ServerID): State {
    var locks := if target in s.serverLocks then s.serverLocks else s.serverLocks[target := NewMutex(s)];
    s.(serverLocks := locks, holder := s.holder[locks[target] := Some(w)]).Put(w, Critical(target, locks[target]))
  }

  predicate LockIsFree(s: State, target: ServerID) {
    target in s.serverLocks ==> s.serverLocks[target] in s.holder && s.holder[s.serverLocks[target]].None?
  }

  lemma EnterIsARun(s: State, w: Worker, target: ServerID, rest: seq<Action>)
    requires s.At(w).AtRest? && LockIsFree(s, target) && Possible(Entered(s, w, target), rest)
    ensures var steps := [LoadOrStore(w, target)] + ([Lock(w)] + rest);
            Possible(s, steps) && After(s, steps) == After(Entered(s, w, target), rest)
  {
    hide Possible, After;
    var s1 := Next(s, LoadOrStore(w, target));
    assert Next(s1, Lock(w)) == Entered(s, w, target);
    InFront(s1, Lock(w), rest);
    InFront(s, LoadOrStore(w, target), [Lock(w)] + rest);
  }

  /** A routing request is a run of the lock protocol, in any state in which its worker is at
      rest and the target's lock is free: afterwards the worker is at rest, the target's lock is
      free again and is the one it always was, and nothing else has changed but the tasks. */
  lemma RouteIsARun(env: Env, r: Remote, s: State, w: Worker, addr: Addr, target: ServerID)
    requires s.At(w).AtRest? && LockIsFree(s, target)
    ensures var steps := RouteSteps(env, r, s, w, addr, target);
            && Possible(s, steps)
            && var s' := After(s, steps);
            && s'.At(w).AtRest? && (forall v: Worker :: v != w ==> s'.At(v) == s.At(v))
            && s'.serverLocks == (if target in s.serverLocks then s.serverLocks else s.serverLocks[target := NewMutex(s)])
            && s'.holder == s.holder[s'.serverLocks[target] := None]
            && s'.tasks == s.tasks + (if RoutingLaws.Finds(env, r, addr) then NewTasks(env, r.clock + 1, target) else [])
  {
    hide Possible, After, CriticalSteps, NewTasks, RoutingLaws.Finds;
    var inside := Entered(s, w, target);
    var mutex := inside.At(w).mutex;
    var steps := CriticalSteps(env, r, w, addr, |s.tasks|);
    CriticalIsARun(env, r, inside, w, addr, target, mutex);
    Back(inside, steps, Unlock(w));
    EnterIsARun(s, w, target, steps + [Unlock(w)]);
    assert Next(After(inside, steps), Unlock(w)).holder == s.holder[mutex := None];
  }

  /** What SCP's reply and the poll rounds say of a PATCH: no task of it can be open once the request
      has ended. It was refused, or lost on its way to SCP, or it came with a task that the
      wait saw in a terminal state. */
  ghost predicate LeavesNoTask(reply: PatchReply, rounds: TaskWait.Stream) {
    || reply.status.NotAccepted?
    || reply.status.NeverArrived?
    || (reply.status.AcceptedWithTask? && exists state :: TaskWait.SeenIn(rounds, state))
  }

  /** The run sends a PATCH exactly if the request does, namely if the listing has the address; and
      its steps are those that keep tasks from overlapping exactly if none is sent or the one
      sent leaves no task. */
  lemma RouteIsTameIff(env: Env, r: Remote, s: State, w: Worker, addr: Addr, target: ServerID)
    ensures var steps := RouteSteps(env, r, s, w, addr, target);
            && ((exists a :: a in steps && SendsPatch(a)) <==> RoutingLaws.Finds(env, r, addr))
            && (RouteUnderLock(env, r, addr, target).0.issued != r.issued <==> RoutingLaws.Finds(env, r, addr))
            && (AllTame(steps) <==>
                  !RoutingLaws.Finds(env, r, addr) || LeavesNoTask(ReplyOf(env, r.clock + 1), RoundsOf(env, r.clock + 1)))
  {
    hide RoutingLaws.Finds, CriticalSteps, LeavesNoTask;
    var steps := RouteSteps(env, r, s, w, addr, target);
    var middle := CriticalSteps(env, r, w, addr, |s.tasks|);
    assert forall a :: a in steps <==> a == LoadOrStore(w, target) || a == Lock(w) || a in middle || a == Unlock(w);
    RoutingLaws.RouteAnswers(env, r, addr, target);
    MiddleIsTameIff(env, r, w, addr, |s.tasks|);
  }

  lemma OnlyTame(a: Action)
    ensures AllTame([a]) <==> Tame(a)
    ensures (exists b :: b in [a] && SendsPatch(b)) <==> SendsPatch(a)
  {
    assert a in [a];
  }

  lemma FirstTame(a: Action, rest: seq<Action>)
    ensures AllTame([a] + rest) <==> Tame(a) && AllTame(rest)
    ensures SendsPatch(a) ==> exists b :: b in [a] + rest && SendsPatch(b)
  {
    assert a in [a] + rest && forall b :: b in [a] + rest <==> b == a || b in rest;
  }

  lemma PatchIsTameIff(env: Env, t: nat, w: Worker, k: nat)
    ensures var steps := PatchSteps(env, t, w, k);
            && (exists a :: a in steps && SendsPatch(a))
            && (AllTame(steps) <==> LeavesNoTask(ReplyOf(env, t), RoundsOf(env, t)))
  {
    hide AllTame;
    var seen := TaskWait.EndState(RoundsOf(env, t));
    if !ReplyOf(env, t).status.AcceptedWithTask? {
      OnlyTame(PatchSteps(env, t, w, k)[0]);
    } else if seen.Some? {
      OnlyTame(SeenDone(w));
      FirstTame(Progress(k, seen.value), [SeenDone(w)]);
      FirstTame(Accepted(w), [Progress(k, seen.value)] + [SeenDone(w)]);
    } else {
      OnlyTame(GaveUpWaiting(w));
      FirstTame(Accepted(w), [GaveUpWaiting(w)]);
    }
  }

  lemma MiddleIsTameIff(env: Env, r: Remote, w: Worker, addr: Addr, k: nat)
    ensures var middle := CriticalSteps(env, r, w, addr, k);
            && ((exists a :: a in middle && SendsPatch(a)) <==> RoutingLaws.Finds(env, r, addr))
            && (AllTame(middle) <==>
                  !RoutingLaws.Finds(env, r, addr) || LeavesNoTask(ReplyOf(env, r.clock + 1), RoundsOf(env, r.clock + 1)))
  {
    hide RoutingLaws.Finds, AllTame, PatchSteps, LeavesNoTask;
    if RoutingLaws.Finds(env, r, addr) {
      PatchIsTameIff(env, r.clock + 1, w, k);
    } else {
      OnlyTame(EndEarly(w, NothingSent));
    }
  }
}
