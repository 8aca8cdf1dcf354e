/** The label protocol of one service name as a step system: processes that move the "true"
    label to a node or take it away, one API call at a time, failing or stopping anywhere. */
module LabelProtocol {
  import opened Basics
  import opened Stores
  import LabelSpec
  import LabelLaws

  type Process = nat

  /** Where a process is. With a target it is updateServiceNode towards that node, without one
      removeServiceNode, which patches the service first. */
  datatype Place =
    | Idle
    | Listing(target: Option<string>)
    | Clearing(target: Option<string>, pending: seq<string>)
    | Patching(target: Option<string>)
    | Marking(node: string)

  /** The nodes labelled "true" for the service name, and the processes at work. */
  datatype State = State(active: set<string>, processes: map<Process, Place>) {
    function At(p: Process): Place {
      if p in processes then processes[p] else Idle
    }

    function Put(p: Process, place: Place): State {
      this.(processes := processes[p := place])
    }
  }

  datatype Action =
    | Begin(p: Process, target: Option<string>)
    | List(p: Process, listing: seq<string>)
    | Clear(p: Process, fate: Fate)                  // the next listed node gets "false"
    | AllCleared(p: Process)
    | PatchObject(p: Process, fate: Fate)                  // the service is patched
    | Mark(p: Process, fate: Fate)                   // the target gets "true"
    | Stop(p: Process)                               // a read failed, or the process was stopped

  ghost predicate Enabled(s: State, a: Action) {
    match a
    case Begin(p, _) => s.At(p).Idle?
    case List(p, listing) => s.At(p).Listing? && forall n :: n in listing <==> n in s.active
    case Clear(p, _) => s.At(p).Clearing? && s.At(p).pending != []
    case AllCleared(p) => s.At(p).Clearing? && s.At(p).pending == []
    case PatchObject(p, _) => s.At(p).Patching?
    case Mark(p, _) => s.At(p).Marking?
    case Stop(_) => true
  }

  ghost function Next(s: State, a: Action): State
    requires Enabled(s, a)
  {
    match a
    case Begin(p, target) => s.Put(p, if target.Some? then Listing(target) else Patching(None))
    case List(p, listing) => s.Put(p, Clearing(s.At(p).target, listing))
    case Clear(p, fate) =>
      var Clearing(target, pending) := s.At(p);
      if Some(pending[0]) == target then s.Put(p, Clearing(target, pending[1..]))
      else
        s.(active := if fate.Dropped? then s.active else s.active - {pending[0]})
         .Put(p, if fate.Answered? then Clearing(target, pending[1..]) else Idle)
    case AllCleared(p) => s.Put(p, if s.At(p).target.Some? then Patching(s.At(p).target) else Idle)
    case PatchObject(p, fate) =>
      var target := s.At(p).target;
      s.Put(p, if !fate.Answered? then Idle else if target.Some? then Marking(target.value) else Listing(None))
    case Mark(p, fate) =>
      s.(active := if fate.Dropped? then s.active else s.active + {s.At(p).node}).Put(p, Idle)
    case Stop(p) => s.Put(p, Idle)
  }

  ghost predicate Possible(s: State, actions: seq<Action>)
    decreases |actions|
  {
    actions == [] || (Enabled(s, actions[0]) && Possible(Next(s, actions[0]), actions[1..]))
  }

  ghost function After(s: State, actions: seq<Action>): State
    requires Possible(s, actions)
    decreases |actions|
  {
    if actions == [] then s else After(Next(s, actions[0]), actions[1..])
  }

  /******* At most one active node *******/

  /** The node a process is moving the label to, if it is updating. */
  function Towards(place: Place): Option<string> {
    match place
    case Idle => None
    case Listing(target) => target
    case Clearing(target, _) => target
    case Patching(target) => target
    case Marking(node) => Some(node)
  }

  ghost predicate AtMostOne(active: set<string>) {
    forall m, n :: m in active && n in active ==> m == n
  }

  /** What an updater has achieved so far. */
  ghost predicate Progress(active: set<string>, place: Place) {
    match place
    case Clearing(Some(node), pending) => forall n :: n in active ==> n == node || n in pending
    case Patching(Some(node)) => active <= {node}
    case Marking(node) => active <= {node}
    case _ => true
  }

  /** All updates in progress are towards this node. */
  ghost predicate AllTowards(s: State, node: string) {
    forall p: Process :: Towards(s.At(p)).Some? ==> Towards(s.At(p)) == Some(node)
  }

  /** All updates in progress agree on the node, and each has achieved what its place says. */
  ghost predicate Good(s: State) {
    && (forall p: Process, q: Process :: Towards(s.At(p)).Some? && Towards(s.At(q)).Some? ==> Towards(s.At(p)) == Towards(s.At(q)))
    && (forall p: Process :: Progress(s.active, s.At(p)))
  }

  /** An update begins only if all updates in progress then are towards the same node. */
  ghost predicate Agreeing(s: State, actions: seq<Action>)
    requires Possible(s, actions)
    decreases |actions|
  {
    actions != [] ==>
      && (actions[0].Begin? && actions[0].target.Some? ==> AllTowards(s, actions[0].target.value))
      && Agreeing(Next(s, actions[0]), actions[1..])
  }

  lemma StepIsGood(s: State, a: Action)
    requires Good(s) && Enabled(s, a)
    requires a.Begin? && a.target.Some? ==> AllTowards(s, a.target.value)
    ensures Good(Next(s, a))
    ensures AtMostOne(s.active) ==> AtMostOne(Next(s, a).active)
  {
    var s' := Next(s, a);
    assert Progress(s.active, s.At(a.p));
    forall p: Process
      ensures p != a.p ==> s'.At(p) == s.At(p)
      ensures Towards(s'.At(p)).Some? ==> Towards(s'.At(p)) == Towards(s.At(p)) || (a.Begin? && p == a.p && Towards(s'.At(p)) == a.target)
      ensures Progress(s'.active, s'.At(p))
    {
      assert Progress(s.active, s.At(p));
    }
  }

  /** What holds in every state of a run. */
  ghost predicate AlwaysAtMostOne(s: State, actions: seq<Action>)
    requires Possible(s, actions)
    decreases |actions|
  {
    AtMostOne(s.active) && (actions != [] ==> AlwaysAtMostOne(Next(s, actions[0]), actions[1..]))
  }

  /** Nobody is at work. */
  ghost predicate Calm(s: State) {
    forall p: Process :: s.At(p).Idle?
  }

  lemma {:induction false} GoodRun(s: State, actions: seq<Action>)
    requires Good(s) && Possible(s, actions) && Agreeing(s, actions)
    ensures Good(After(s, actions))
    ensures AtMostOne(s.active) ==> AlwaysAtMostOne(s, actions)
    decreases |actions|
  {
    if actions != [] {
      StepIsGood(s, actions[0]);
      GoodRun(Next(s, actions[0]), actions[1..]);
    }
  }

  /** At most one active node: over every interleaving of any number of removals with updates that
      agree on the node, one alone in particular, with lost answers and stops anywhere, a service
      name that starts with at most one active node never has two. */
  lemma AtMostOneActive(s: State, actions: seq<Action>)
    requires Calm(s) && AtMostOne(s.active)
    requires Possible(s, actions) && Agreeing(s, actions)
    ensures AlwaysAtMostOne(s, actions)
  {
    GoodRun(s, actions);
  }

  /** The last write of an update, from any starting labels and whatever interleaves: right after
      it exactly the chosen node is active. */
  lemma UpdateEndsExact(s: State, actions: seq<Action>, p: Process)
    requires Calm(s) && Possible(s, actions) && Agreeing(s, actions)
    requires After(s, actions).At(p).Marking?
    ensures var s' := After(s, actions);
            Next(s', Mark(p, Answered)).active == {s'.At(p).node}
  {
    GoodRun(s, actions);
    assert Progress(After(s, actions).active, After(s, actions).At(p));
  }

  /******* Updates that disagree *******/

  /** An action of one of these processes that goes through and begins nothing new. */
  predicate CarriesOn(a: Action, processes: set<Process>) {
    && a.p in processes
    && match a
       case Begin(_, _) => false
       case Clear(_, fate) => fate.Answered?
       case PatchObject(_, fate) => fate.Answered?
       case Mark(_, fate) => fate.Answered?
       case Stop(_) => false
       case _ => true
  }

  ghost predicate AllCarryOn(actions: seq<Action>, processes: set<Process>) {
    forall a :: a in actions ==> CarriesOn(a, processes)
  }

  lemma InFront(s: State, a: Action, rest: seq<Action>)
    requires Enabled(s, a) && Possible(Next(s, a), rest)
    ensures Possible(s, [a] + rest) && After(s, [a] + rest) == After(Next(s, a), rest)
  {
    assert ([a] + rest)[1..] == rest;
  }

  lemma OneStep(s: State, a: Action)
    requires Enabled(s, a)
    ensures Possible(s, [a]) && After(s, [a]) == Next(s, a)
  {
    assert [a][1..] == [];
  }

  lemma {:induction false} InParts(s: State, these: seq<Action>, those: seq<Action>)
    requires Possible(s, these) && Possible(After(s, these), those)
    ensures Possible(s, these + those) && After(s, these + those) == After(After(s, these), those)
    decreases |these|
  {
    if these == [] {
      assert these + those == those;
    } else {
      assert (these + those)[1..] == these[1..] + those;
      InParts(Next(s, these[0]), these[1..], those);
    }
  }

  /** The nodes of a set, one after the other. */
  lemma {:induction false} Enumerate(nodes: set<string>) returns (listing: seq<string>)
    ensures forall n :: n in listing <==> n in nodes
    decreases |nodes|
  {
    if nodes == {} {
      listing := [];
    } else {
      var n :| n in nodes;
      var rest := Enumerate(nodes - {n});
      listing := [n] + rest;
    }
  }

  function Rank(place: Place): nat {
    match place
    case Listing(_) => 3
    case Clearing(_, _) => 2
    case Patching(_) => 1
    case _ => 0
  }

  /** Undisturbed, an update always gets to its last write. */
  lemma {:induction false} GetReady(s: State, p: Process) returns (steps: seq<Action>)
    requires Towards(s.At(p)).Some?
    ensures Possible(s, steps) && AllCarryOn(steps, {p})
    ensures After(s, steps).At(p) == Marking(Towards(s.At(p)).value)
    ensures forall q: Process :: q != p ==> After(s, steps).At(q) == s.At(q)
    decreases Rank(s.At(p)), if s.At(p).Clearing? then |s.At(p).pending| else 0
  {
    if s.At(p).Marking? {
      steps := [];
    } else {
      var a;
      match s.At(p) {
        case Listing(_) =>
          var listing := Enumerate(s.active);
          a := List(p, listing);
        case Clearing(_, pending) => a := if pending == [] then AllCleared(p) else Clear(p, Answered);
        case Patching(_) => a := PatchObject(p, Answered);
      }
      var rest := GetReady(Next(s, a), p);
      InFront(s, a, rest);
      steps := [a] + rest;
    }
  }

  /** Both processes have made their last write, and it went through. */
  ghost predicate BothSucceed(s: State, actions: seq<Action>, p: Process, q: Process) {
    && Possible(s, actions) && AllCarryOn(actions, {p, q})
    && Mark(p, Answered) in actions && Mark(q, Answered) in actions
    && After(s, actions).At(p).Idle? && After(s, actions).At(q).Idle?
  }

  /** Two updates in progress towards different nodes can both succeed, with no other process at
      work, and leave both nodes active. */
  lemma DisagreeingUpdatesBreakIt(s: State, p: Process, q: Process) returns (actions: seq<Action>)
    requires Towards(s.At(p)).Some? && Towards(s.At(q)).Some? && Towards(s.At(p)) != Towards(s.At(q))
    ensures BothSucceed(s, actions, p, q)
    ensures {Towards(s.At(p)).value, Towards(s.At(q)).value} <= After(s, actions).active
  {
    hide Possible, After;
    var first := GetReady(s, p);
    var s1 := After(s, first);
    var second := GetReady(s1, q);
    var s2 := After(s1, second);
    InParts(s, first, second);
    var s3 := Next(s2, Mark(p, Answered));
    OneStep(s3, Mark(q, Answered));
    InFront(s2, Mark(p, Answered), [Mark(q, Answered)]);
    var last := [Mark(p, Answered)] + [Mark(q, Answered)];
    InParts(s, first + second, last);
    actions := first + second + last;
    assert last[0] in actions && last[1] in actions by {
      assert actions[|first + second|] == last[0] && actions[|first + second| + 1] == last[1];
    }
  }

  lemma {:induction false} AlwaysUntilTheEnd(s: State, actions: seq<Action>)
    requires Possible(s, actions) && AlwaysAtMostOne(s, actions)
    ensures AtMostOne(After(s, actions).active)
    decreases |actions|
  {
    if actions != [] {
      AlwaysUntilTheEnd(Next(s, actions[0]), actions[1..]);
    }
  }

  lemma TwoAtTheEnd(s: State, actions: seq<Action>, m: string, n: string)
    requires Possible(s, actions) && m != n && {m, n} <= After(s, actions).active
    ensures !AlwaysAtMostOne(s, actions)
  {
    assert m in After(s, actions).active && n in After(s, actions).active;
    if AlwaysAtMostOne(s, actions) {
      AlwaysUntilTheEnd(s, actions);
    }
  }

  lemma {:induction false} NothingBegins(s: State, actions: seq<Action>, processes: set<Process>)
    requires Possible(s, actions) && AllCarryOn(actions, processes)
    ensures Agreeing(s, actions)
    decreases |actions|
  {
    if actions != [] {
      assert actions[0] in actions;
      NothingBegins(Next(s, actions[0]), actions[1..], processes);
    }
  }

  /** When another update may begin: with at most one node active and the updates in progress in
      agreement, every continuation in which later updates agree too keeps at most one node
      active exactly if the new update is towards the node of those in progress. */
  lemma UpdateMayBeginIff(s: State, q: Process, node: string)
    requires Good(s) && AtMostOne(s.active) && s.At(q).Idle?
    ensures AllTowards(s, node) <==>
            var s1 := Next(s, Begin(q, Some(node)));
            forall actions :: Possible(s1, actions) && Agreeing(s1, actions) ==> AlwaysAtMostOne(s1, actions)
  {
    hide Possible, Agreeing, AlwaysAtMostOne, After;
    var s1 := Next(s, Begin(q, Some(node)));
    if AllTowards(s, node) {
      StepIsGood(s, Begin(q, Some(node)));
      forall actions | Possible(s1, actions) && Agreeing(s1, actions)
        ensures AlwaysAtMostOne(s1, actions)
      {
        GoodRun(s1, actions);
      }
    } else {
      var p: Process :| Towards(s.At(p)).Some? && Towards(s.At(p)) != Some(node);
      assert s1.At(p) == s.At(p) && Towards(s1.At(q)) == Some(node);
      var actions := DisagreeingUpdatesBreakIt(s1, p, q);
      NothingBegins(s1, actions, {p, q});
      TwoAtTheEnd(s1, actions, Towards(s1.At(p)).value, node);
      assert Possible(s1, actions) && Agreeing(s1, actions) && !AlwaysAtMostOne(s1, actions);
    }
  }

  /** Two updates alone, from no process at work and no active node at all, can both succeed and
      leave two. */
  lemma TwoUpdatersBreakIt(a: string, b: string)
    requires a != b
    ensures var s := Next(Next(State({}, map[]), Begin(0, Some(a))), Begin(1, Some(b)));
            exists actions :: BothSucceed(s, actions, 0, 1) && {a, b} <= After(s, actions).active
  {
    var s := Next(Next(State({}, map[]), Begin(0, Some(a))), Begin(1, Some(b)));
    assert s.At(0) == Listing(Some(a)) && s.At(1) == Listing(Some(b));
    var actions := DisagreeingUpdatesBreakIt(s, 0, 1);
  }

  /******* The operations are runs of the protocol *******/

  /** A process that resets, as a run: one step per listed node. */
  ghost function ResetEachSteps(env: Env, r: Remote, p: Process, nodes: seq<string>, labelName: string, exclude: Option<string>): seq<Action>
    decreases |nodes|
  {
    if nodes == [] then []
    else if Some(nodes[0]) == exclude then [Clear(p, Answered)] + ResetEachSteps(env, r, p, nodes[1..], labelName, exclude)
    else
      var (r1, written) := LabelNode(env, r, nodes[0], labelName, "false");
      if written then [Clear(p, Answered)] + ResetEachSteps(env, r1, p, nodes[1..], labelName, exclude)
      else [Clear(p, if r1.kube == r.kube then Dropped else AnswerLost)]
  }

  /** What the reset leaves to do, or nothing after a failure. */
  ghost function Rest(answer: Result<()>, exclude: Option<string>): Place {
    if answer.Ok? then Clearing(exclude, []) else Idle
  }

  lemma ClearOne(kube: Kube, node: string, labelName: string)
    requires node in kube.nodes
    ensures SetMark(kube, node, labelName, "false").Active(labelName) == kube.Active(labelName) - {node}
    ensures SetMark(kube, node, labelName, "true").Active(labelName) == kube.Active(labelName) + {node}
  {
    LabelLaws.SetMarkMarks(kube, node, labelName, "false");
    LabelLaws.SetMarkMarks(kube, node, labelName, "true");
  }

  lemma {:induction false} ResetEachIsARun(env: Env, r: Remote, s: State, p: Process, nodes: seq<string>, labelName: string, exclude: Option<string>)
    requires s.active == r.kube.Active(labelName) && s.At(p) == Clearing(exclude, nodes)
    requires forall n :: n in nodes ==> n in r.kube.nodes
    ensures var (r', answer) := LabelSpec.ResetEach(env, r, nodes, labelName, exclude);
            var steps := ResetEachSteps(env, r, p, nodes, labelName, exclude);
            && Possible(s, steps)
            && After(s, steps) == State(r'.kube.Active(labelName), s.processes[p := Rest(answer, exclude)])
    decreases |nodes|
  {
    if nodes == [] {
      assert s.processes[p := Clearing(exclude, [])] == s.processes;
    } else {
      assert nodes[0] in nodes;
      ClearOne(r.kube, nodes[0], labelName);
      var skip := Some(nodes[0]) == exclude;
      var (r1, written) := if skip then (r, true) else LabelNode(env, r, nodes[0], labelName, "false");
      var a := Clear(p, if written then Answered else if r1.kube == r.kube then Dropped else AnswerLost);
      var s1 := Next(s, a);
      if written {
        ResetEachIsARun(env, r1, s1, p, nodes[1..], labelName, exclude);
        InFront(s, a, ResetEachSteps(env, r1, p, nodes[1..], labelName, exclude));
        var place := Rest(LabelSpec.ResetEach(env, r1, nodes[1..], labelName, exclude).1, exclude);
        assert s1.processes[p := place] == s.processes[p := place];
      } else {
        assert [a][1..] == [];
        assert s1.active == r1.kube.Active(labelName);
        assert After(s, [a]) == s1;
      }
    }
  }

  /** resetNodeLabels, from its listing on. */
  ghost function ResetSteps(env: Env, r: Remote, p: Process, labelName: string, exclude: Option<string>): seq<Action> {
    var (r1, marked) := ListMarkedNodes(env, r, labelName);
    if marked.Err? then [Stop(p)]
    else [List(p, marked.value)] + ResetEachSteps(env, r1, p, marked.value, labelName, exclude)
  }

  lemma ResetIsARun(env: Env, r: Remote, s: State, p: Process, labelName: string, exclude: Option<string>)
    requires s.active == r.kube.Active(labelName) && s.At(p) == Listing(exclude)
    ensures var (r', answer) := LabelSpec.Reset(env, r, labelName, exclude);
            var steps := ResetSteps(env, r, p, labelName, exclude);
            && Possible(s, steps)
            && After(s, steps) == State(r'.kube.Active(labelName), s.processes[p := Rest(answer, exclude)])
  {
    var (r1, marked) := ListMarkedNodes(env, r, labelName);
    if marked.Ok? {
      var s1 := Next(s, List(p, marked.value));
      ResetEachIsARun(env, r1, s1, p, marked.value, labelName, exclude);
      InFront(s, List(p, marked.value), ResetEachSteps(env, r1, p, marked.value, labelName, exclude));
      var place := Rest(LabelSpec.Reset(env, r, labelName, exclude).1, exclude);
      assert s1.processes[p := place] == s.processes[p := place];
    } else {
      assert [Stop(p)][1..] == [];
    }
  }

  /** How a label write ends, as the protocol sees it. */
  ghost function WriteFate(env: Env, r: Remote, node: string, labelName: string, mark: string): Fate {
    var (r', written) := LabelNode(env, r, node, labelName, mark);
    if written then Answered else if r'.kube == r.kube then Dropped else AnswerLost
  }

  /** The end of updateServiceNode, after the reset: the service and then the chosen node. */
  ghost function FinishSteps(env: Env, r: Remote, p: Process, service: Service, node: string): seq<Action> {
    var (r1, patched) := PatchService(env, r, service, LabelSpec.Labelled(service, node));
    if patched.Err? then [AllCleared(p)] + [PatchObject(p, Dropped)]
    else
      [AllCleared(p)] + ([PatchObject(p, Answered)] + [Mark(p, WriteFate(env, r1, node, LabelName(service.name), "true"))])
  }

  lemma SameActive(kube: Kube, kube': Kube, labelName: string)
    requires kube'.marks == kube.marks && kube'.nodes == kube.nodes
    ensures kube'.Active(labelName) == kube.Active(labelName)
  {
    assert forall n :: kube'.Marked(n, labelName) <==> kube.Marked(n, labelName);
  }

  lemma MarkIsAStep(env: Env, r: Remote, s: State, p: Process, node: string, labelName: string)
    requires s.active == r.kube.Active(labelName) && s.At(p) == Marking(node)
    ensures var a := Mark(p, WriteFate(env, r, node, labelName, "true"));
            && Possible(s, [a])
            && After(s, [a]) == State(LabelNode(env, r, node, labelName, "true").0.kube.Active(labelName), s.processes[p := Idle])
  {
    if node in r.kube.nodes {
      ClearOne(r.kube, node, labelName);
    }
    OneStep(s, Mark(p, WriteFate(env, r, node, labelName, "true")));
  }

  lemma FinishIsARun(env: Env, r: Remote, s: State, p: Process, service: Service, node: string)
    requires s.active == r.kube.Active(LabelName(service.name)) && s.At(p) == Clearing(Some(node), [])
    ensures var (r1, patched) := PatchService(env, r, service, LabelSpec.Labelled(service, node));
            var r' := if patched.Ok? then LabelNode(env, r1, node, LabelName(service.name), "true").0 else r1;
            var steps := FinishSteps(env, r, p, service, node);
            && Possible(s, steps)
            && After(s, steps) == State(r'.kube.Active(LabelName(service.name)), s.processes[p := Idle])
  {
    hide Possible, After, LabelNode, WriteFate;
    var labelName := LabelName(service.name);
    var (r1, patched) := PatchService(env, r, service, LabelSpec.Labelled(service, node));
    SameActive(r.kube, r1.kube, labelName);
    var s1, s2 := s.Put(p, Patching(Some(node))), s.Put(p, Marking(node));
    assert Next(s, AllCleared(p)) == s1;
    if patched.Err? {
      assert Next(s1, PatchObject(p, Dropped)) == s.Put(p, Idle);
      OneStep(s1, PatchObject(p, Dropped));
      InFront(s, AllCleared(p), [PatchObject(p, Dropped)]);
    } else {
      var mark := Mark(p, WriteFate(env, r1, node, labelName, "true"));
      assert Next(s1, PatchObject(p, Answered)) == s2;
      MarkIsAStep(env, r1, s2, p, node, labelName);
      assert s2.processes[p := Idle] == s.processes[p := Idle];
      InFront(s1, PatchObject(p, Answered), [mark]);
      InFront(s, AllCleared(p), [PatchObject(p, Answered)] + [mark]);
    }
  }

  /** updateServiceNode as a run of the protocol. */
  ghost function UpdateSteps(env: Env, r: Remote, p: Process, service: Service, node: string): seq<Action> {
    var labelName := LabelName(service.name);
    var (r1, reset) := LabelSpec.Reset(env, r, labelName, Some(node));
    var first := [Begin(p, Some(node))] + ResetSteps(env, r, p, labelName, Some(node));
    if reset.Err? then first else first + FinishSteps(env, r1, p, service, node)
  }

  lemma UpdateIsARun(env: Env, r: Remote, s: State, p: Process, service: Service, node: string)
    requires s.active == r.kube.Active(LabelName(service.name)) && s.At(p).Idle?
    ensures var (r', answer) := LabelSpec.Update(env, r, service, node);
            var steps := UpdateSteps(env, r, p, service, node);
            && Possible(s, steps)
            && After(s, steps) == State(r'.kube.Active(LabelName(service.name)), s.processes[p := Idle])
  {
    hide LabelSpec.Reset, ResetSteps, FinishSteps, Possible, After;
    var labelName := LabelName(service.name);
    var (r1, reset) := LabelSpec.Reset(env, r, labelName, Some(node));
    var s1 := Next(s, Begin(p, Some(node)));
    ResetIsARun(env, r, s1, p, labelName, Some(node));
    var steps := ResetSteps(env, r, p, labelName, Some(node));
    InFront(s, Begin(p, Some(node)), steps);
    var s2 := After(s1, steps);
    assert s2 == State(r1.kube.Active(labelName), s.processes[p := Rest(reset, Some(node))]);
    if reset.Ok? {
      FinishIsARun(env, r1, s2, p, service, node);
      InParts(s, [Begin(p, Some(node))] + steps, FinishSteps(env, r1, p, service, node));
      assert s2.processes[p := Idle] == s.processes[p := Idle];
    }
  }

  /** removeServiceNode as a run of the protocol. */
  ghost function RemoveSteps(env: Env, r: Remote, p: Process, service: Service, clearStatus: bool): seq<Action> {
    var labelName := LabelName(service.name);
    var (r1, patched) := PatchService(env, r, service, LabelSpec.Unlabelled(service, clearStatus));
    if patched.Err? then [Begin(p, None)] + [PatchObject(p, Dropped)]
    else
      var reset := LabelSpec.Reset(env, r1, labelName, None).1;
      [Begin(p, None)] + ([PatchObject(p, Answered)] +
        (ResetSteps(env, r1, p, labelName, None) + (if reset.Ok? then [AllCleared(p)] else [])))
  }

  /** A removal has nothing left to do once its reset has ended. */
  lemma LeaveReset(s: State, p: Process, before: map<Process, Place>, rest: Place)
    requires rest in {Idle, Clearing(None, [])} && s.processes == before[p := rest]
    ensures var last := if rest.Clearing? then [AllCleared(p)] else [];
            Possible(s, last) && After(s, last) == State(s.active, before[p := Idle])
  {
    if rest.Clearing? {
      OneStep(s, AllCleared(p));
      assert s.processes[p := Idle] == before[p := Idle];
    }
  }

  lemma RemoveIsARun(env: Env, r: Remote, s: State, p: Process, service: Service, clearStatus: bool)
    requires s.active == r.kube.Active(LabelName(service.name)) && s.At(p).Idle?
    ensures var (r', answer) := LabelSpec.Remove(env, r, service, clearStatus);
            var steps := RemoveSteps(env, r, p, service, clearStatus);
            && Possible(s, steps)
            && After(s, steps) == State(r'.kube.Active(LabelName(service.name)), s.processes[p := Idle])
  {
    hide LabelSpec.Reset, ResetSteps, Possible, After;
    var labelName := LabelName(service.name);
    var (r1, patched) := PatchService(env, r, service, LabelSpec.Unlabelled(service, clearStatus));
    SameActive(r.kube, r1.kube, labelName);
    var s1 := Next(s, Begin(p, None));
    assert s1 == s.Put(p, Patching(None));
    if patched.Err? {
      assert Next(s1, PatchObject(p, Dropped)) == s.Put(p, Idle);
      OneStep(s1, PatchObject(p, Dropped));
      InFront(s, Begin(p, None), [PatchObject(p, Dropped)]);
    } else {
      var s2 := Next(s1, PatchObject(p, Answered));
      assert s2 == s.Put(p, Listing(None));
      ResetIsARun(env, r1, s2, p, labelName, None);
      var (r2, reset) := LabelSpec.Reset(env, r1, labelName, None);
      var steps := ResetSteps(env, r1, p, labelName, None);
      var last := if reset.Ok? then [AllCleared(p)] else [];
      LeaveReset(After(s2, steps), p, s.processes, Rest(reset, None));
      InParts(s2, steps, last);
      InFront(s1, PatchObject(p, Answered), steps + last);
      InFront(s, Begin(p, None), [PatchObject(p, Answered)] + (steps + last));
    }
  }
}
