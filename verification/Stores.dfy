/** The two external stores, the calls the controller makes on them, and the environment
    that decides how each call fares. Every call is a pure function from store to store. */
module Stores {
  import opened Basics
  import TaskWait

  /******* netcup SCP *******/

  type ServerID = int

  datatype ServerState = BLOCKED | CRASHED | DISKSNAPSHOT | NOSTATE | PAUSED | PMSUSPENDED | RUNNING | SHUTDOWN | SHUTOFF

  /** A failover address record; the API leaves fields out freely. */
  datatype Record = Record(id: Option<int>, text: Option<Text>, server: Option<ServerID>)

  datatype Server = Server(name: Option<string>, id: Option<ServerID>)

  datatype LiveInfo = LiveInfo(state: Option<ServerState>)

  datatype ServerInfo = ServerInfo(id: Option<ServerID>, live: Option<LiveInfo>)

  /** `infos` maps a server ID to the body of its detail answer, which may be absent. */
  datatype Scp = Scp(v4: seq<Record>, v6: seq<Record>, servers: seq<Server>, infos: map<ServerID, Option<ServerInfo>>) {
    function Records(family: Family): seq<Record> {
      if family.IPv4? then v4 else v6
    }
  }

  /** A request to route the record with this ID to a server. */
  datatype Patch = Patch(family: Family, id: int, target: ServerID)

  function Redirect(records: seq<Record>, id: int, target: ServerID): (moved: seq<Record>)
    ensures |moved| == |records|
    ensures forall i :: 0 <= i < |records| ==>
              moved[i] == if records[i].id == Some(id) then records[i].(server := Some(target)) else records[i]
  {
    seq(|records|, i requires 0 <= i < |records| =>
      if records[i].id == Some(id) then records[i].(server := Some(target)) else records[i])
  }

  function ApplyPatch(scp: Scp, p: Patch): Scp {
    if p.family.IPv4?
    then scp.(v4 := Redirect(scp.v4, p.id, p.target))
    else scp.(v6 := Redirect(scp.v6, p.id, p.target))
  }

  /******* Kubernetes *******/

  type Key = (string, string)

  /** The parts of a Service this controller reads or writes. `nodeLabel` and `nodeAnnotation` are
      the values under the key `k8s.mback2k.net/nc-failover-node`. */
  datatype Service = Service(namespace: string, name: string, families: seq<Family>,
                             nodeLabel: Option<string>, nodeAnnotation: Option<string>, ingress: seq<Text>) {
    function Key(): Key {
      (namespace, name)
    }
  }

  const NODE_SERVICE := "nc-failover-service.k8s.mback2k.net/"

  function LabelName(serviceName: string): string {
    NODE_SERVICE + serviceName
  }

  lemma LabelNameInjective(a: string, b: string)
    requires LabelName(a) == LabelName(b)
    ensures a == b
  {
    assert a == LabelName(a)[|NODE_SERVICE|..];
    assert b == LabelName(b)[|NODE_SERVICE|..];
  }

  /** `marks` holds the node labels by node and label name. */
  datatype Kube = Kube(services: map<Key, Service>, serviceOrder: seq<Key>,
                       nodes: seq<string>, marks: map<(string, string), string>) {
    predicate Marked(node: string, labelName: string) {
      (node, labelName) in marks && marks[(node, labelName)] == "true"
    }

    function Active(labelName: string): set<string> {
      set n | n in nodes && Marked(n, labelName)
    }
  }

  function MarkedNodes(nodes: seq<string>, kube: Kube, labelName: string): (marked: seq<string>)
    ensures forall n :: n in marked <==> n in nodes && kube.Marked(n, labelName)
  {
    if nodes == [] then []
    else (if kube.Marked(nodes[0], labelName) then [nodes[0]] else []) + MarkedNodes(nodes[1..], kube, labelName)
  }

  function LabelledServices(order: seq<Key>, kube: Kube, node: string): (found: seq<Service>)
    ensures forall s :: s in found ==>
              exists k :: k in order && k in kube.services && kube.services[k] == s && s.nodeLabel == Some(node)
    ensures forall k :: k in order && k in kube.services && kube.services[k].nodeLabel == Some(node) ==>
              kube.services[k] in found
  {
    if order == [] then []
    else
      var rest := LabelledServices(order[1..], kube, node);
      assert forall k :: k in order ==> k == order[0] || k in order[1..];
      if order[0] in kube.services && kube.services[order[0]].nodeLabel == Some(node)
      then [kube.services[order[0]]] + rest
      else rest
  }

  /** What patching with the difference between two copies does to one field. */
  function Merge<T(==)>(before: T, after: T, server: T): T {
    if before == after then server else after
  }

  /** PatchService: the difference between the two copies, applied to the server's object. */
  function PatchedService(before: Service, after: Service, server: Service): Service {
    server.(nodeLabel := Merge(before.nodeLabel, after.nodeLabel, server.nodeLabel),
            nodeAnnotation := Merge(before.nodeAnnotation, after.nodeAnnotation, server.nodeAnnotation),
            ingress := Merge(before.ingress, after.ingress, server.ingress))
  }

  /******* The environment *******/

  /** How one call fares. A `Dropped` write has no effect; a write whose answer is lost took
      effect although the caller sees an error. */
  datatype Fate = Answered | Dropped | AnswerLost

  /** How a routing PATCH is answered. The caller cannot tell one that was lost on its way from one
      that SCP accepted and whose answer was lost. */
  datatype PatchStatus = NeverArrived | NoAnswer | NotAccepted | AcceptedWithTask | AcceptedWithoutTask

  /** How a routing PATCH fares, and whether it moves the address at once. */
  datatype PatchReply = PatchReply(status: PatchStatus, applied: bool)

  /** By the number of the call: what others do to SCP before it, which of this process's
      earlier PATCHes take effect only then, the fate of the call, the reply if it is a
      routing PATCH, and the poll rounds of the task such a PATCH starts. */
  datatype RawEnv = RawEnv(drift: (nat, Scp) -> Scp, late: nat -> seq<nat>, fate: nat -> Fate,
                           reply: nat -> PatchReply, rounds: nat -> TaskWait.Stream)

  ghost predicate EveryWaitEnds(e: RawEnv) {
    forall t: nat :: TaskWait.Ends(e.rounds(t))
  }

  ghost function DeadEnv(): (e: RawEnv)
    ensures EveryWaitEnds(e)
  {
    var rounds: TaskWait.Stream := (k: nat) => TaskWait.Round(TaskWait.NoAnswer, true);
    assert !TaskWait.GoesOn(TaskWait.At(rounds, 0));
    RawEnv((t: nat, s: Scp) => s, (t: nat) => [], (t: nat) => Dropped,
           (t: nat) => PatchReply(NeverArrived, false), (t: nat) => rounds)
  }

  /** Runs in which some wait never ends never return and are not modelled. */
  type Env = e: RawEnv | EveryWaitEnds(e) ghost witness DeadEnv()

  function FateOf(env: Env, t: nat): Fate {
    env.fate(t)
  }

  function ReplyOf(env: Env, t: nat): PatchReply {
    env.reply(t)
  }

  function RoundsOf(env: Env, t: nat): (s: TaskWait.Stream)
    ensures TaskWait.Decides(s)
  {
    TaskWait.WaitEndsIff(env.rounds(t));
    env.rounds(t)
  }

  function DriftOf(env: Env, t: nat, scp: Scp): Scp {
    env.drift(t, scp)
  }

  function LateOf(env: Env, t: nat): seq<nat> {
    env.late(t)
  }

  /** Nobody else changes SCP, and no abandoned task takes effect later. */
  ghost predicate Quiet(env: Env) {
    && Undisturbed(env)
    && (forall t: nat :: LateOf(env, t) == [])
  }

  /** Nobody else changes SCP; this process's own tasks may still finish late. */
  ghost predicate Undisturbed(env: Env) {
    forall t: nat, scp: Scp :: DriftOf(env, t, scp) == scp
  }

  ghost predicate AllAnswered(env: Env) {
    forall t: nat :: FateOf(env, t) == Answered
  }

  /** Every call is answered; every routing task finishes and is then visible. */
  ghost predicate Reliable(env: Env) {
    && AllAnswered(env)
    && (forall t: nat :: ReplyOf(env, t) == PatchReply(AcceptedWithTask, true))
    && (forall t: nat :: TaskWait.Outcome(RoundsOf(env, t)) == Ok(()))
  }

  /******* Calls *******/

  /** Both stores, the number of calls made so far and the routing PATCHes SCP was sent. */
  datatype Remote = Remote(scp: Scp, kube: Kube, clock: nat, issued: seq<Patch>)

  function ApplyLate(which: seq<nat>, issued: seq<Patch>, scp: Scp): Scp {
    if which == [] then scp
    else ApplyLate(which[1..], issued, if which[0] < |issued| then ApplyPatch(scp, issued[which[0]]) else scp)
  }

  function Tick(env: Env, r: Remote): Remote {
    r.(scp := DriftOf(env, r.clock, ApplyLate(LateOf(env, r.clock), r.issued, r.scp)), clock := r.clock + 1)
  }

  function OnServer(records: seq<Record>, server: ServerID): seq<Record> {
    if records == [] then []
    else (if records[0].server == Some(server) then [records[0]] else []) + OnServer(records[1..], server)
  }

  function Listing(scp: Scp, family: Family, server: Option<ServerID>): seq<Record> {
    if server.None? then scp.Records(family) else OnServer(scp.Records(family), server.value)
  }

  function ListFailovers(env: Env, r: Remote, family: Family, server: Option<ServerID>): (Remote, Result<seq<Record>>) {
    var r' := Tick(env, r);
    (r', if FateOf(env, r.clock).Answered? then Ok(Listing(r'.scp, family, server)) else Err(CallFailed))
  }

  function ListServers(env: Env, r: Remote): (Remote, Result<seq<Server>>) {
    var r' := Tick(env, r);
    (r', if FateOf(env, r.clock).Answered? then Ok(r'.scp.servers) else Err(CallFailed))
  }

  function GetServerInfo(env: Env, r: Remote, id: ServerID): (Remote, Result<Option<ServerInfo>>) {
    var r' := Tick(env, r);
    (r', if FateOf(env, r.clock).Answered? && id in r'.scp.infos then Ok(r'.scp.infos[id]) else Err(CallFailed))
  }

  /** The PATCH reaches SCP's books whatever the caller gets to see. */
  function PatchFailover(env: Env, r: Remote, p: Patch): (Remote, PatchStatus) {
    var r' := Tick(env, r);
    var reply := ReplyOf(env, r.clock);
    (r'.(scp := if reply.applied then ApplyPatch(r'.scp, p) else r'.scp, issued := r'.issued + [p]), reply.status)
  }

  function PatchService(env: Env, r: Remote, before: Service, after: Service): (Remote, Result<()>) {
    var r' := Tick(env, r);
    var fate := FateOf(env, r.clock);
    if fate.Dropped? || before.Key() !in r.kube.services then
      (r', Err(CallFailed))
    else
      var patched := PatchedService(before, after, r.kube.services[before.Key()]);
      (r'.(kube := r.kube.(services := r.kube.services[before.Key() := patched])),
       if fate.Answered? then Ok(()) else Err(CallFailed))
  }

  function ListMarkedNodes(env: Env, r: Remote, labelName: string): (Remote, Result<seq<string>>) {
    (Tick(env, r),
     if FateOf(env, r.clock).Answered? then Ok(MarkedNodes(r.kube.nodes, r.kube, labelName)) else Err(CallFailed))
  }

  function SetMark(kube: Kube, node: string, labelName: string, value: string): Kube {
    kube.(marks := kube.marks[(node, labelName) := value])
  }

  function LabelNode(env: Env, r: Remote, node: string, labelName: string, value: string): (Remote, bool) {
    var r' := Tick(env, r);
    var fate := FateOf(env, r.clock);
    if fate.Dropped? || node !in r.kube.nodes then (r', false)
    else (r'.(kube := SetMark(r.kube, node, labelName, value)), fate.Answered?)
  }

  function ListServices(env: Env, r: Remote, node: string): (Remote, Result<seq<Service>>) {
    (Tick(env, r),
     if FateOf(env, r.clock).Answered? then Ok(LabelledServices(r.kube.serviceOrder, r.kube, node)) else Err(CallFailed))
  }
}
