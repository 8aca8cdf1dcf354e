/** The load balancer interface of nc/load_balancers.go, method by method. */
module LoadBalancers {
  import opened Basics
  import opened Stores
  import opened BalancerSpec
  import opened CloudSpec
  import LabelSpec
  import SelectLaws
  import C = Cloud

  /** The ready nodes are those with a condition of type Ready whose status is true. */
  lemma ReadyMeans(nodes: seq<Node>)
    ensures forall n :: n in ReadyNames(nodes) <==>
              exists i, c :: 0 <= i < |nodes| && nodes[i].name == n && c in nodes[i].conditions && c.isReadyType && c.isTrue
  {
    forall n
      ensures n in ReadyNames(nodes) <==>
        exists i, c :: 0 <= i < |nodes| && nodes[i].name == n && c in nodes[i].conditions && c.isReadyType && c.isTrue
    {
      if n in ReadyNames(nodes) {
        var i :| 0 <= i < |nodes| && IsReady(nodes[i]) && nodes[i].name == n;
        var k :| 0 <= k < |nodes[i].conditions| && nodes[i].conditions[k].isReadyType && nodes[i].conditions[k].isTrue;
        assert nodes[i].conditions[k] in nodes[i].conditions;
      }
    }
  }

  class LoadBalancers {
    const cloud: C.Cloud

    constructor (cloud: C.Cloud)
      ensures this.cloud == cloud
    {
      this.cloud := cloud;
    }

    /** A range over a map: its keys, each once, in an arbitrary order. */
    static method RangeOrder(keys: set<string>) returns (order: seq<string>)
      ensures IsOrder(order, keys)
    {
      order := [];
      var rest := keys;
      while rest != {}
        invariant rest <= keys
        invariant forall n :: n in order <==> n in keys - rest
        invariant forall i, j :: 0 <= i < j < |order| ==> order[i] != order[j]
        decreases rest
      {
        var n :| n in rest;
        assert forall m :: m in order + [n] <==> m in order || m == n;
        order := order + [n];
        rest := rest - {n};
      }
    }

    /** The readyNodes map: exactly the names of ready nodes, each leading to such a node. */
    static method ReadyNodes(nodes: seq<Node>) returns (ready: map<string, Node>)
      ensures ready.Keys == ReadyNames(nodes)
      ensures forall n :: n in ready ==> ready[n] in nodes && ready[n].name == n && IsReady(ready[n])
    {
      ready := map[];
      for i := 0 to |nodes|
        invariant forall n :: n in ready <==> exists j :: 0 <= j < i && IsReady(nodes[j]) && nodes[j].name == n
        invariant forall n :: n in ready ==> ready[n] in nodes && ready[n].name == n && IsReady(ready[n])
      {
        var conditions := nodes[i].conditions;
        ghost var before := ready;
        var k := 0;
        while k < |conditions|
          invariant 0 <= k <= |conditions|
          invariant forall m :: 0 <= m < k ==> !(conditions[m].isReadyType && conditions[m].isTrue)
          invariant ready == before
        {
          if conditions[k].isReadyType && conditions[k].isTrue {
            ready := ready[nodes[i].name := nodes[i]];
            break;
          }
          k := k + 1;
        }
        assert IsReady(nodes[i]) <==> k < |conditions|;
        assert ready == if IsReady(nodes[i]) then before[nodes[i].name := nodes[i]] else before;
      }
    }

    /** GetLoadBalancer. The flags that the nested loops clear decide exactly `Stands`. */
    method GetLoadBalancer(service: Service) returns (status: Result<Option<seq<Text>>>)
      modifies cloud`server, cloud`log, cloud.api
      ensures var (w, exists') := Exists(cloud.api.env, cloud.config, old(cloud.World()), service);
              && cloud.World() == w
              && status == (if exists'.Err? then Err(exists'.error)
                            else Ok(if exists'.value then Some(service.ingress) else None))
    {
      if service.nodeLabel.None? {
        return Ok(None);
      }
      var node := service.nodeLabel.value;
      var needIPv4, needIPv6 := WantedFamilies(service.families);

      var v4: seq<Addr> := [];
      if needIPv4 {
        var listed := cloud.GetFailoverIPs(IPv4, Some(node));
        if listed.Err? {
          return Err(listed.error);
        }
        v4 := listed.value;
        if |v4| == 0 {
          return Ok(None);
        }
      }
      var v6: seq<Addr> := [];
      if needIPv6 {
        var listed := cloud.GetFailoverIPs(IPv6, Some(node));
        if listed.Err? {
          return Err(listed.error);
        }
        v6 := listed.value;
        if |v6| == 0 {
          return Ok(None);
        }
      }
      SelectLaws.HostedOfFamily(cloud.api.env, cloud.config, old(cloud.World()), service, node);

      var stands := IngressStands(service, v4, v6, needIPv4, needIPv6);
      if stands.Err? {
        return Err(stands.error);
      }
      if stands.value {
        return Ok(Some(service.ingress));
      }
      return Ok(None);
    }

    /** The loops over the ingress: the flags they clear decide exactly `Stands`, whatever the
        addresses and texts, and one text that does not parse fails the whole decision. */
    static method IngressStands(service: Service, v4: seq<Addr>, v6: seq<Addr>, wantIPv4: bool, wantIPv6: bool)
      returns (stands: Result<bool>)
      requires wantIPv4 <==> IPv4 in service.families
      requires wantIPv6 <==> IPv6 in service.families
      requires forall a :: a in v4 ==> a.family.IPv4?
      requires forall a :: a in v6 ==> a.family.IPv6?
      ensures stands == if AllParse(service.ingress) then Ok(Stands(service, v4, v6)) else Err(BadAddress)
    {
      var needIPv4, needIPv6 := wantIPv4, wantIPv6;
      var foundAll := true;
      var i := 0;
      while i < |service.ingress|
        invariant 0 <= i <= |service.ingress|
        invariant AllParse(service.ingress[..i])
        invariant foundAll <==> forall k :: 0 <= k < i ==> service.ingress[k] in Texts(v4) || service.ingress[k] in Texts(v6)
        invariant needIPv4 <==> wantIPv4 && !exists k :: 0 <= k < i && service.ingress[k] in Texts(v4)
        invariant needIPv6 <==> wantIPv6 && !exists k :: 0 <= k < i && service.ingress[k] in Texts(v6)
      {
        var text := service.ingress[i];
        var addr := Parse(text);
        if addr.None? {
          return Err(BadAddress);
        }
        var found := false;
        if addr.value.family.IPv4? {
          found := Contains(v4, text);
          if found {
            needIPv4 := false;
          }
        } else {
          found := Contains(v6, text);
          if found {
            needIPv6 := false;
          }
        }
        if !found {
          foundAll := false;
        }
        i := i + 1;
      }
      assert service.ingress[..i] == service.ingress;
      assert Stands(service, v4, v6) <==> foundAll && !needIPv4 && !needIPv6 by {
        assert forall t :: t in service.ingress <==> exists k :: 0 <= k < |service.ingress| && service.ingress[k] == t;
      }
      return Ok(foundAll && !needIPv4 && !needIPv6);
    }

    /** The inner loop that looks for an ingress text among the hosted addresses. */
    static method Contains(addrs: seq<Addr>, text: Text) returns (found: bool)
      ensures found <==> text in Texts(addrs)
    {
      found := false;
      var k := 0;
      while k < |addrs|
        invariant 0 <= k <= |addrs|
        invariant text !in Texts(addrs)[..k]
        invariant !found
      {
        if TextOf(addrs[k]) == text {
          assert text == Texts(addrs)[k];
          found := true;
          break;
        }
        k := k + 1;
      }
    }

    static method WantedFamilies(families: seq<Family>) returns (wantIPv4: bool, wantIPv6: bool)
      ensures wantIPv4 <==> IPv4 in families
      ensures wantIPv6 <==> IPv6 in families
    {
      wantIPv4, wantIPv6 := false, false;
      for i := 0 to |families|
        invariant wantIPv4 <==> IPv4 in families[..i]
        invariant wantIPv6 <==> IPv6 in families[..i]
      {
        match families[i] {
          case IPv4 => wantIPv4 := true;
          case IPv6 => wantIPv6 := true;
        }
      }
    }

    /** EnsureLoadBalancer. The two orders are those in which the maps are ranged over. */
    method EnsureLoadBalancer(service: Service, nodes: seq<Node>)
      returns (status: Result<Option<seq<Text>>>, ghost searchOrder: seq<string>, ghost createOrder: seq<string>)
      modifies cloud, cloud.api
      ensures C.LetsGo(old(cloud.serverLocks), cloud.serverLocks)
      ensures IsOrder(searchOrder, ReadyNames(nodes)) && IsOrder(createOrder, ReadyNames(nodes))
      ensures (cloud.World(), status) ==
              Ensure(cloud.api.env, cloud.config, old(cloud.World()), service, ReadyNames(nodes), searchOrder, createOrder)
    {
      hide Keep, Search, Create;
      var readyNodes := ReadyNodes(nodes);
      var order1 := RangeOrder(readyNodes.Keys);
      var order2 := RangeOrder(readyNodes.Keys);
      searchOrder, createOrder := order1, order2;

      var kept := KeepExisting(service, readyNodes);
      if kept.Err? {
        status := Err(kept.error);
        return;
      }
      if kept.value {
        status := Ok(Some(service.ingress));
        return;
      }
      var wantIPv4, wantIPv6 := WantedFamilies(service.families);
      var chosen := SearchMatching(service, order1, wantIPv4, wantIPv6);
      if chosen.Ok? && chosen.value.None? {
        chosen := CreateNew(service, order2, wantIPv4, wantIPv6);
      }
      if chosen.Err? {
        status := Err(chosen.error);
        return;
      }
      if chosen.value.None? {
        status := Ok(None);
        return;
      }
      var choice := chosen.value.value;
      status := CreateLoadBalancerStatus(service, readyNodes[choice.node], choice.Ingress());
    }

    /** The first phase: the balancer that stands on a ready node is kept, its labels renewed. */
    method KeepExisting(service: Service, readyNodes: map<string, Node>) returns (kept: Result<bool>)
      requires forall n :: n in readyNodes ==> readyNodes[n].name == n
      modifies cloud`server, cloud`log, cloud.api
      ensures (cloud.World(), kept) ==
              Keep(cloud.api.env, cloud.config, old(cloud.World()), service, readyNodes.Keys)
    {
      if service.nodeLabel.Some? {
        var nodeName := service.nodeLabel.value;
        if nodeName in readyNodes {
          var existing := GetLoadBalancer(service);
          if existing.Err? {
            return Err(existing.error);
          }
          if existing.value.Some? {
            var updated := cloud.UpdateServiceNode(service, readyNodes[nodeName].name);
            if updated.Err? {
              return Err(updated.error);
            }
            return Ok(true);
          }
        }
      }
      return Ok(false);
    }

    /** The search phase: the first node in the order that hosts an address of every wanted family. */
    method SearchMatching(service: Service, order: seq<string>, wantIPv4: bool, wantIPv6: bool)
      returns (found: Result<Option<Choice>>)
      requires wantIPv4 <==> IPv4 in service.families
      requires wantIPv6 <==> IPv6 in service.families
      modifies cloud`server, cloud`log, cloud.api
      ensures (cloud.World(), found) == Search(cloud.api.env, cloud.config, old(cloud.World()), service, order)
      ensures found.Ok? && found.value.Some? ==> found.value.value.node in order
    {
      hide SearchNode;
      var i := 0;
      while i < |order|
        invariant 0 <= i <= |order|
        invariant Search(cloud.api.env, cloud.config, cloud.World(), service, order[i..]) ==
                  Search(cloud.api.env, cloud.config, old(cloud.World()), service, order)
      {
        assert order[i..][1..] == order[i + 1..];
        var offer := Offers(service, order[i], wantIPv4, wantIPv6);
        if offer.Err? {
          return Err(offer.error);
        }
        var choice := offer.value;
        if (wantIPv4 ==> choice.v4.Some?) && (wantIPv6 ==> choice.v6.Some?) && |choice.Ingress()| > 0 {
          return Ok(Some(choice));
        }
        i := i + 1;
      }
      return Ok(None);
    }

    /** One round of the search phase: the first hosted address of each wanted family. */
    method Offers(service: Service, node: string, wantIPv4: bool, wantIPv6: bool) returns (offer: Result<Choice>)
      requires wantIPv4 <==> IPv4 in service.families
      requires wantIPv6 <==> IPv6 in service.families
      modifies cloud`server, cloud`log, cloud.api
      ensures (cloud.World(), offer) == SearchNode(cloud.api.env, cloud.config, old(cloud.World()), service, node)
      ensures offer.Ok? ==> offer.value.node == node
    {
      var choice := Choice(node, None, None);
      if wantIPv4 {
        var listed := cloud.GetFailoverIPs(IPv4, Some(node));
        if listed.Err? {
          return Err(listed.error);
        }
        if |listed.value| > 0 {
          choice := choice.(v4 := Some(listed.value[0]));
        }
      }
      if wantIPv6 {
        var listed := cloud.GetFailoverIPs(IPv6, Some(node));
        if listed.Err? {
          return Err(listed.error);
        }
        if |listed.value| > 0 {
          choice := choice.(v6 := Some(listed.value[0]));
        }
      }
      return Ok(choice);
    }

    /** The creation phase: the first ready node in the order to which an address of every
        wanted family can be routed. */
    method CreateNew(service: Service, order: seq<string>, wantIPv4: bool, wantIPv6: bool)
      returns (created: Result<Option<Choice>>)
      requires wantIPv4 <==> IPv4 in service.families
      requires wantIPv6 <==> IPv6 in service.families
      modifies cloud, cloud.api
      ensures C.LetsGo(old(cloud.serverLocks), cloud.serverLocks)
      ensures (cloud.World(), created) == Create(cloud.api.env, cloud.config, old(cloud.World()), service, order)
      ensures created.Ok? && created.value.Some? ==> created.value.value.node in order
    {
      hide RouteToNode, Probe;
      var i := 0;
      while i < |order|
        invariant 0 <= i <= |order|
        invariant C.LetsGo(old(cloud.serverLocks), cloud.serverLocks)
        invariant Create(cloud.api.env, cloud.config, cloud.World(), service, order[i..]) ==
                  Create(cloud.api.env, cloud.config, old(cloud.World()), service, order)
      {
        assert order[i..][1..] == order[i + 1..];
        ghost var before := cloud.World();
        var resp := cloud.GetServer(order[i]);
        if resp.Err? {
          return Err(resp.error);
        }
        if resp.value.None? || resp.value.value.live.None? || resp.value.value.id.None? {
          i := i + 1;
          continue;
        }
        if resp.value.value.live.value.state.None? {
          return Err(NilPointer);
        }
        if resp.value.value.live.value.state.value != RUNNING {
          i := i + 1;
          continue;
        }
        var visit := RouteTo(service, order[i], resp.value.value.id.value, wantIPv4, wantIPv6);
        assert (cloud.World(), visit) == VisitNode(cloud.api.env, cloud.config, before, service, order[i]);
        match visit {
          case Aborted(e) => return Err(e);
          case GaveUp => return Ok(None);
          case Skipped =>
          case Attempted(choice) =>
            if (wantIPv4 ==> choice.v4.Some?) && (wantIPv6 ==> choice.v6.Some?) && |choice.Ingress()| > 0 {
              return Ok(Some(choice));
            }
        }
        i := i + 1;
      }
      return Ok(None);
    }

    /** The rest of one round of the creation phase, once the node's server is known to run. */
    method RouteTo(service: Service, node: string, target: ServerID, wantIPv4: bool, wantIPv6: bool)
      returns (visit: Visit)
      requires wantIPv4 <==> IPv4 in service.families
      requires wantIPv6 <==> IPv6 in service.families
      modifies cloud, cloud.api
      ensures C.LetsGo(old(cloud.serverLocks), cloud.serverLocks)
      ensures (cloud.World(), visit) ==
              RouteToNode(cloud.api.env, cloud.config, old(cloud.World()), service, node, target)
      ensures visit.Attempted? ==> visit.choice.node == node
    {
      var choice := Choice(node, None, None);
      if wantIPv4 {
        var listed := cloud.GetFailoverIPs(IPv4, None);
        if listed.Err? {
          return Aborted(listed.error);
        }
        if |listed.value| == 0 {
          return GaveUp;
        }
        var routed := RouteFirstOf(listed.value, target);
        choice := choice.(v4 := routed);
      }
      if wantIPv6 {
        var listed := cloud.GetFailoverIPs(IPv6, None);
        if listed.Err? {
          return Aborted(listed.error);
        }
        if |listed.value| == 0 {
          return GaveUp;
        }
        var routed := RouteFirstOf(listed.value, target);
        choice := choice.(v6 := routed);
      }
      return Attempted(choice);
    }

    /** The candidate loop of the creation phase: the first address that routes. */
    method RouteFirstOf(addrs: seq<Addr>, target: ServerID) returns (routed: Option<Addr>)
      modifies cloud`serverLocks, cloud`log, cloud.api
      ensures C.LetsGo(old(cloud.serverLocks), cloud.serverLocks)
      ensures (cloud.World(), routed) == RouteFirst(cloud.api.env, old(cloud.World()), addrs, target)
    {
      var k := 0;
      while k < |addrs|
        invariant 0 <= k <= |addrs|
        invariant C.LetsGo(old(cloud.serverLocks), cloud.serverLocks)
        invariant RouteFirst(cloud.api.env, cloud.World(), addrs[k..], target) ==
                  RouteFirst(cloud.api.env, old(cloud.World()), addrs, target)
      {
        assert addrs[k..][1..] == addrs[k + 1..];
        var answer := cloud.RouteServerIP(addrs[k], target);
        if answer.Ok? {
          return Some(addrs[k]);
        }
        k := k + 1;
      }
      return None;
    }

    method CreateLoadBalancerStatus(service: Service, node: Node, ingress: seq<Text>)
      returns (status: Result<Option<seq<Text>>>)
      modifies cloud.api
      ensures var (r, created) := LabelSpec.CreateStatus(cloud.api.env, old(cloud.api.remote), service, node.name);
              && cloud.api.remote == r
              && status == (if created.Ok? then Ok(Some(ingress)) else Err(created.error))
    {
      if service.nodeLabel.Some? {
        var removed := cloud.RemoveServiceNode(service, false);
        if removed.Err? {
          return Err(removed.error);
        }
      }
      var updated := cloud.UpdateServiceNode(service, node.name);
      if updated.Err? {
        return Err(updated.error);
      }
      return Ok(Some(ingress));
    }

    /** UpdateLoadBalancer discards the status. */
    method UpdateLoadBalancer(service: Service, nodes: seq<Node>)
      returns (answer: Result<()>, ghost searchOrder: seq<string>, ghost createOrder: seq<string>)
      modifies cloud, cloud.api
      ensures C.LetsGo(old(cloud.serverLocks), cloud.serverLocks)
      ensures IsOrder(searchOrder, ReadyNames(nodes)) && IsOrder(createOrder, ReadyNames(nodes))
      ensures var (w, status) := Ensure(cloud.api.env, cloud.config, old(cloud.World()), service, ReadyNames(nodes),
                                        searchOrder, createOrder);
              cloud.World() == w && answer == (if status.Ok? then Ok(()) else Err(status.error))
    {
      var status;
      status, searchOrder, createOrder := EnsureLoadBalancer(service, nodes);
      answer := if status.Ok? then Ok(()) else Err(status.error);
    }

    method EnsureLoadBalancerDeleted(service: Service) returns (answer: Result<()>)
      modifies cloud.api
      ensures (cloud.api.remote, answer) == LabelSpec.Delete(cloud.api.env, old(cloud.api.remote), service)
    {
      if service.nodeLabel.Some? {
        answer := cloud.RemoveServiceNode(service, false);
        return;
      }
      return Ok(());
    }
  }
}
