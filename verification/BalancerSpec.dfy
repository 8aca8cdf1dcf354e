/** What the operations of nc/load_balancers.go compute: the decision whether a balancer
    still stands, and the three phases of establishing one. */
module BalancerSpec {
  import opened Basics
  import opened Stores
  import opened CloudSpec
  import LabelSpec

  datatype Node = Node(name: string, conditions: seq<Condition>)

  datatype Condition = Condition(isReadyType: bool, isTrue: bool)

  predicate IsReady(node: Node) {
    exists i :: 0 <= i < |node.conditions| && node.conditions[i].isReadyType && node.conditions[i].isTrue
  }

  function ReadyNames(nodes: seq<Node>): set<string> {
    set i | 0 <= i < |nodes| && IsReady(nodes[i]) :: nodes[i].name
  }

  /** A possible order of a range over a map with these keys. */
  ghost predicate IsOrder(order: seq<string>, keys: set<string>) {
    && (forall n :: n in order <==> n in keys)
    && (forall i, j :: 0 <= i < j < |order| ==> order[i] != order[j])
  }

  /******* Does the balancer still stand? *******/

  /** The addresses of one family the decision goes by: none are asked for unless wanted. */
  ghost function Hosted(env: Env, config: seq<Addr>, w: World, service: Service, family: Family, node: string)
    : (World, Result<seq<Addr>>)
  {
    if family in service.families then Failovers(env, config, w, family, Some(node)) else (w, Ok([]))
  }

  /** Every ingress text is the canonical text of a hosted address, and every wanted family
      has an ingress among its hosted addresses. */
  ghost predicate Stands(service: Service, v4: seq<Addr>, v6: seq<Addr>) {
    && (forall t :: t in service.ingress ==> t in Texts(v4) || t in Texts(v6))
    && (IPv4 in service.families ==> exists t :: t in service.ingress && t in Texts(v4))
    && (IPv6 in service.families ==> exists t :: t in service.ingress && t in Texts(v6))
  }

  ghost predicate AllParse(texts: seq<Text>) {
    forall t :: t in texts ==> Parse(t).Some?
  }

  /** GetLoadBalancer: whether a balancer exists; its status then is the service's own. */
  ghost function Exists(env: Env, config: seq<Addr>, w: World, service: Service): (World, Result<bool>) {
    if service.nodeLabel.None? then (w, Ok(false))
    else
      var (w1, v4) := Hosted(env, config, w, service, IPv4, service.nodeLabel.value);
      if v4.Err? then (w1, Err(v4.error))
      else if IPv4 in service.families && v4.value == [] then (w1, Ok(false))
      else
        var (w2, v6) := Hosted(env, config, w1, service, IPv6, service.nodeLabel.value);
        if v6.Err? then (w2, Err(v6.error))
        else if IPv6 in service.families && v6.value == [] then (w2, Ok(false))
        else if !AllParse(service.ingress) then (w2, Err(BadAddress))
        else (w2, Ok(Stands(service, v4.value, v6.value)))
  }

  /******* Searching for a node that already hosts the addresses *******/

  datatype Choice = Choice(node: string, v4: Option<Addr>, v6: Option<Addr>) {
    function Ingress(): seq<Text> {
      Texts(OptionSeq(v4) + OptionSeq(v6))
    }

    function Of(family: Family): Option<Addr> {
      if family.IPv4? then v4 else v6
    }
  }

  ghost predicate Complete(service: Service, c: Choice) {
    && (IPv4 in service.families ==> c.v4.Some?)
    && (IPv6 in service.families ==> c.v6.Some?)
    && (c.v4.Some? || c.v6.Some?)
  }

  ghost function First(addrs: seq<Addr>): Option<Addr> {
    if addrs == [] then None else Some(addrs[0])
  }

  ghost function SearchNode(env: Env, config: seq<Addr>, w: World, service: Service, node: string): (World, Result<Choice>) {
    var (w1, v4) := Hosted(env, config, w, service, IPv4, node);
    if v4.Err? then (w1, Err(v4.error))
    else
      var (w2, v6) := Hosted(env, config, w1, service, IPv6, node);
      if v6.Err? then (w2, Err(v6.error))
      else (w2, Ok(Choice(node, First(v4.value), First(v6.value))))
  }

  ghost function Search(env: Env, config: seq<Addr>, w: World, service: Service, order: seq<string>)
    : (World, Result<Option<Choice>>)
    decreases |order|
  {
    if order == [] then (w, Ok(None))
    else
      var (w1, found) := SearchNode(env, config, w, service, order[0]);
      if found.Err? then (w1, Err(found.error))
      else if Complete(service, found.value) then (w1, Ok(Some(found.value)))
      else Search(env, config, w1, service, order[1..])
  }

  /******* Routing addresses to a node *******/

  ghost function RouteFirst(env: Env, w: World, addrs: seq<Addr>, target: ServerID): (World, Option<Addr>)
    decreases |addrs|
  {
    if addrs == [] then (w, None)
    else
      var (w1, routed) := Route(env, w, addrs[0], target);
      if routed.Ok? then (w1, Some(addrs[0])) else RouteFirst(env, w1, addrs[1..], target)
  }

  /** The attempt at one family: an error, no configured address anywhere, or the address
      that was routed, if any was. */
  datatype Attempt = Failed(error: Error) | NoneListed | Tried(addr: Option<Addr>)

  ghost function TryFamily(env: Env, config: seq<Addr>, w: World, service: Service, family: Family, target: ServerID)
    : (World, Attempt)
  {
    if family !in service.families then (w, Tried(None))
    else
      var (w1, addrs) := Failovers(env, config, w, family, None);
      if addrs.Err? then (w1, Failed(addrs.error))
      else if addrs.value == [] then (w1, NoneListed)
      else
        var (w2, addr) := RouteFirst(env, w1, addrs.value, target);
        (w2, Tried(addr))
  }

  /** What visiting a node comes to: an error, giving up altogether, going on with the next
      node, or what could be routed to this one. */
  datatype Visit = Aborted(error: Error) | GaveUp | Skipped | Attempted(choice: Choice)

  ghost predicate Incomplete(info: Option<ServerInfo>) {
    info.None? || info.value.live.None? || info.value.id.None?
  }

  ghost function VisitNode(env: Env, config: seq<Addr>, w: World, service: Service, node: string): (World, Visit) {
    var (w1, probe) := Probe(env, w, node);
    if probe.Err? then (w1, Aborted(probe.error))
    else if Incomplete(probe.value) then (w1, Skipped)
    else
      var state := probe.value.value.live.value.state;
      if state.None? then (w1, Aborted(NilPointer))
      else if state.value != RUNNING then (w1, Skipped)
      else RouteToNode(env, config, w1, service, node, probe.value.value.id.value)
  }

  ghost function RouteToNode(env: Env, config: seq<Addr>, w: World, service: Service, node: string, target: ServerID)
    : (World, Visit)
  {
    var (w1, v4) := TryFamily(env, config, w, service, IPv4, target);
    if v4.Failed? then (w1, Aborted(v4.error))
    else if v4.NoneListed? then (w1, GaveUp)
    else
      var (w2, v6) := TryFamily(env, config, w1, service, IPv6, target);
      if v6.Failed? then (w2, Aborted(v6.error))
      else if v6.NoneListed? then (w2, GaveUp)
      else (w2, Attempted(Choice(node, v4.addr, v6.addr)))
  }

  ghost function Create(env: Env, config: seq<Addr>, w: World, service: Service, order: seq<string>)
    : (World, Result<Option<Choice>>)
    decreases |order|
  {
    if order == [] then (w, Ok(None))
    else
      var (w1, visit) := VisitNode(env, config, w, service, order[0]);
      match visit
      case Aborted(e) => (w1, Err(e))
      case GaveUp => (w1, Ok(None))
      case Skipped => Create(env, config, w1, service, order[1..])
      case Attempted(choice) =>
        if Complete(service, choice) then (w1, Ok(Some(choice)))
        else Create(env, config, w1, service, order[1..])
  }

  /******* Establishing a balancer *******/

  /** Keeping the balancer that stands, if the labelled node is ready. */
  ghost function Keep(env: Env, config: seq<Addr>, w: World, service: Service, ready: set<string>): (World, Result<bool>) {
    if service.nodeLabel.None? || service.nodeLabel.value !in ready then (w, Ok(false))
    else
      var (w1, stands) := Exists(env, config, w, service);
      if stands.Err? || !stands.value then (w1, stands)
      else
        var (r, updated) := LabelSpec.Update(env, w1.remote, service, service.nodeLabel.value);
        (w1.(remote := r), if updated.Ok? then Ok(true) else Err(updated.error))
  }

  /** Searching, and routing only if the search comes back with nothing. */
  ghost function Choose(env: Env, config: seq<Addr>, w: World, service: Service,
                        searchOrder: seq<string>, createOrder: seq<string>): (World, Result<Option<Choice>>)
  {
    var (w1, found) := Search(env, config, w, service, searchOrder);
    if found.Err? || found.value.Some? then (w1, found) else Create(env, config, w1, service, createOrder)
  }

  /** Recording a chosen balancer in the labels. */
  ghost function Establish(env: Env, w: World, service: Service, choice: Choice): (World, Result<Option<seq<Text>>>) {
    var (r, created) := LabelSpec.CreateStatus(env, w.remote, service, choice.node);
    (w.(remote := r), if created.Ok? then Ok(Some(choice.Ingress())) else Err(created.error))
  }

  ghost function Ensure(env: Env, config: seq<Addr>, w: World, service: Service, ready: set<string>,
                        searchOrder: seq<string>, createOrder: seq<string>): (World, Result<Option<seq<Text>>>)
  {
    var (w1, kept) := Keep(env, config, w, service, ready);
    if kept.Err? then (w1, Err(kept.error))
    else if kept.value then (w1, Ok(Some(service.ingress)))
    else
      var (w2, chosen) := Choose(env, config, w1, service, searchOrder, createOrder);
      if chosen.Err? then (w2, Err(chosen.error))
      else if chosen.value.None? then (w2, Ok(None))
      else Establish(env, w2, service, chosen.value.value)
  }
}
