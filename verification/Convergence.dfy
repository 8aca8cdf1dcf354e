/** In a quiet and reliable environment, repeated reconciliation comes to rest on one node. */
module Convergence {
  import opened Basics
  import opened Stores
  import opened CloudSpec
  import opened BalancerSpec
  import opened EventLaws
  import opened WorldLaws
  import opened SearchLaws
  import opened CreationLaws
  import opened BalancerLaws
  import opened ConfinementLaws
  import LabelSpec
  import LabelLaws
  import RoutingLaws
  import SelectLaws
  import TaskWait

  ghost predicate Calm(env: Env) {
    Quiet(env) && Reliable(env)
  }

  /** As a calm environment, except that routing PATCHes may fare in any way. */
  ghost predicate Steady(env: Env) {
    Quiet(env) && AllAnswered(env)
  }

  /******* Labelling cannot fail *******/

  lemma {:induction false} ResetEachWorks(env: Env, r: Remote, nodes: seq<string>, labelName: string, exclude: Option<string>)
    requires AllAnswered(env) && forall n :: n in nodes ==> n in r.kube.nodes
    ensures LabelSpec.ResetEach(env, r, nodes, labelName, exclude).1.Ok?
    decreases |nodes|
  {
    if nodes != [] {
      assert FateOf(env, r.clock) == Answered;
      assert nodes[0] in nodes;
      ResetEachWorks(env, if Some(nodes[0]) == exclude then r else LabelNode(env, r, nodes[0], labelName, "false").0,
                     nodes[1..], labelName, exclude);
    }
  }

  lemma ResetWorks(env: Env, r: Remote, labelName: string, exclude: Option<string>)
    requires AllAnswered(env)
    ensures LabelSpec.Reset(env, r, labelName, exclude).1.Ok?
  {
    assert FateOf(env, r.clock) == Answered;
    var (r1, marked) := ListMarkedNodes(env, r, labelName);
    ResetEachWorks(env, r1, marked.value, labelName, exclude);
  }

  lemma UpdateWorks(env: Env, r: Remote, service: Service, node: string)
    requires AllAnswered(env) && service.Key() in r.kube.services && node in r.kube.nodes
    ensures LabelSpec.Update(env, r, service, node).1.Ok?
  {
    hide LabelSpec.Reset;
    var labelName := LabelName(service.name);
    ResetWorks(env, r, labelName, Some(node));
    LabelLaws.ResetOutcome(env, r, labelName, Some(node));
    LabelLaws.ClearEachMarks(r.kube, LabelLaws.MarkedIn(r.kube, labelName), labelName, Some(node));
    var r1 := LabelSpec.Reset(env, r, labelName, Some(node)).0;
    assert FateOf(env, r1.clock) == Answered;
    var r2 := PatchService(env, r1, service, LabelSpec.Labelled(service, node)).0;
    assert FateOf(env, r2.clock) == Answered;
  }

  lemma RemoveWorks(env: Env, r: Remote, service: Service, clearStatus: bool)
    requires AllAnswered(env) && service.Key() in r.kube.services
    ensures LabelSpec.Remove(env, r, service, clearStatus).1.Ok?
  {
    hide LabelSpec.Reset;
    assert FateOf(env, r.clock) == Answered;
    ResetWorks(env, PatchService(env, r, service, LabelSpec.Unlabelled(service, clearStatus)).0, LabelName(service.name), None);
  }

  /** When calls are answered, a deletion succeeds exactly if there is nothing to do or the service
      still exists. */
  lemma DeleteWorksIff(env: Env, r: Remote, service: Service)
    requires AllAnswered(env)
    ensures LabelSpec.Delete(env, r, service).1.Ok? <==> service.nodeLabel.None? || service.Key() in r.kube.services
  {
    hide LabelSpec.Remove;
    if service.nodeLabel.Some? {
      if service.Key() in r.kube.services {
        RemoveWorks(env, r, service, false);
      } else if LabelSpec.Remove(env, r, service, false).1.Ok? {
        LabelLaws.RemoveSucceeds(env, r, service, false);
      }
    }
  }

  lemma {:induction false} RemoveEachWorks(env: Env, r: Remote, services: seq<Service>)
    requires AllAnswered(env) && forall s :: s in services ==> s.Key() in r.kube.services
    ensures LabelSpec.RemoveEach(env, r, services).1.Ok?
    decreases |services|
  {
    hide LabelSpec.Remove;
    if services != [] {
      assert services[0] in services;
      RemoveWorks(env, r, services[0], true);
      LabelLaws.RemovalLeaves(env, r, services[0], true);
      RemoveEachWorks(env, LabelSpec.Remove(env, r, services[0], true).0, services[1..]);
    }
  }

  /** When calls are answered, a shutdown always succeeds. */
  lemma ShutdownWorks(env: Env, r: Remote, node: string)
    requires AllAnswered(env) && LabelLaws.ValidKube(r.kube)
    ensures LabelSpec.Shutdown(env, r, node).1.Ok?
  {
    hide LabelSpec.RemoveEach;
    assert FateOf(env, r.clock) == Answered;
    var found := LabelledServices(r.kube.serviceOrder, r.kube, node);
    forall s | s in found
      ensures s.Key() in r.kube.services
    {
      var k :| k in r.kube.serviceOrder && k in r.kube.services && r.kube.services[k] == s && s.nodeLabel == Some(node);
    }
    RemoveEachWorks(env, ListServices(env, r, node).0, found);
  }

  lemma CreateStatusWorks(env: Env, r: Remote, service: Service, node: string)
    requires AllAnswered(env) && service.Key() in r.kube.services && node in r.kube.nodes
    ensures LabelSpec.CreateStatus(env, r, service, node).1.Ok?
  {
    hide LabelSpec.Update, LabelSpec.Remove;
    if service.nodeLabel.None? {
      UpdateWorks(env, r, service, node);
    } else {
      RemoveWorks(env, r, service, false);
      LabelLaws.RemoveSucceeds(env, r, service, false);
      LabelLaws.RemovedMarks(r.kube, service, false);
      UpdateWorks(env, LabelSpec.Remove(env, r, service, false).0, service, node);
    }
  }

  /******* Reads tell the truth *******/

  lemma HostedTruth(env: Env, config: seq<Addr>, w: World, service: Service, family: Family, node: string)
    requires Steady(env)
    ensures var (w', addrs) := Hosted(env, config, w, service, family, node);
            && SameView(w, w')
            && addrs == if family in service.families then HostedNow(config, w, node, family) else Ok([])
  {
    hide IdOf;
    HostedReads(env, config, w, service, family, node);
    if family in service.families {
      QuietLookUp(env, w, node);
      var w1 := LookUp(env, w, node).0;
      assert FateOf(env, w.remote.clock) == Answered && FateOf(env, w1.remote.clock) == Answered;
      assert IdOf(w1, node) == IdOf(w, node);
      AnsweredFailovers(env, config, w, family, node);
    }
  }

  lemma AnsweredFailovers(env: Env, config: seq<Addr>, w: World, family: Family, node: string)
    requires Steady(env)
    ensures Failovers(env, config, w, family, Some(node)).1 == HostedNow(config, w, node, family)
  {
    QuietTick(env, w.remote);
    assert FateOf(env, w.remote.clock) == Answered;
    var w1 := LookUp(env, w, node).0;
    QuietTick(env, w1.remote);
    assert FateOf(env, w1.remote.clock) == Answered;
  }

  /******* The states on the way *******/

  /** The node's server has an address of every wanted family. */
  ghost predicate OffersAll(config: seq<Addr>, w: World, service: Service, node: string) {
    forall f :: f in service.families ==> HostedNow(config, w, node, f).Ok? && HostedNow(config, w, node, f).value != []
  }

  ghost predicate Holds(w: World, key: Key) {
    key in w.remote.kube.services && w.remote.kube.services[key].Key() == key
  }

  /** Label, annotation, the only active node and the served addresses agree on one ready node. */
  ghost predicate Converged(config: seq<Addr>, w: World, key: Key, ready: set<string>, node: string) {
    && Holds(w, key) && node in ready
    && var service := w.remote.kube.services[key];
    && service.nodeLabel == Some(node) && service.nodeAnnotation == Some(node)
    && node in w.remote.kube.nodes && w.remote.kube.Active(LabelName(service.name)) == {node}
    && Serves(config, w, service, node)
  }

  /** One call away at most: the service is served by its ready labelled node, or it has lost
      its label while a ready node offers all it needs. */
  ghost predicate HalfWay(config: seq<Addr>, w: World, key: Key, ready: set<string>) {
    && Holds(w, key)
    && var service := w.remote.kube.services[key];
    && service.families != []
    && if service.nodeLabel.Some?
       then service.nodeLabel.value in ready && Serves(config, w, service, service.nodeLabel.value)
       else exists n :: n in ready && OffersAll(config, w, service, n)
  }

  /** A call with a fresh copy of the service; the caller stores the status it is given. */
  ghost function Reconcile(env: Env, config: seq<Addr>, w: World, key: Key, ready: set<string>,
                           searchOrder: seq<string>, createOrder: seq<string>): (World, Result<Option<seq<Text>>>)
    requires Holds(w, key)
  {
    var (w', status) := Ensure(env, config, w, w.remote.kube.services[key], ready, searchOrder, createOrder);
    (if status.Ok? && status.value.Some? then Store(w', key, status.value.value) else w', status)
  }

  ghost function Store(w: World, key: Key, status: seq<Text>): World {
    if key !in w.remote.kube.services then w
    else
      var kube := w.remote.kube;
      w.(remote := w.remote.(kube := kube.(services := kube.services[key := kube.services[key].(ingress := status)])))
  }

  ghost predicate GotStatus(status: Result<Option<seq<Text>>>) {
    status.Ok? && status.value.Some?
  }

  /******* Serving *******/

  lemma ServesAfter(config: seq<Addr>, w: World, w': World, service: Service, service': Service, node: string)
    requires SameView(w, w') && service'.families == service.families && service'.ingress == service.ingress
    ensures Serves(config, w', service', node) <==> Serves(config, w, service, node)
    ensures OffersAll(config, w', service', node) <==> OffersAll(config, w, service, node)
  {
    hide HostedNow;
    SameHosted(config, w, w', node);
    assert forall f, t :: ServedBy(config, w', node, f, t) <==> ServedBy(config, w, node, f, t);
  }

  ghost predicate HostsChoice(config: seq<Addr>, w: World, service: Service, choice: Choice) {
    forall f :: if f in service.families
                then HostedNow(config, w, choice.node, f).Ok? && choice.Of(f).Some? &&
                     choice.Of(f).value in HostedNow(config, w, choice.node, f).value
                else choice.Of(f).None?
  }

  lemma WantedIsServed(config: seq<Addr>, w: World, service: Service, choice: Choice, f: Family)
    requires HostsChoice(config, w, service, choice) && f in service.families
    ensures HostedNow(config, w, choice.node, f).Ok? && HostedNow(config, w, choice.node, f).value != []
    ensures choice.Of(f).Some? && TextOf(choice.Of(f).value) in choice.Ingress()
    ensures ServedBy(config, w, choice.node, f, TextOf(choice.Of(f).value))
  {
    hide HostedNow;
    var a := choice.Of(f).value;
    InTexts(OptionSeq(choice.v4) + OptionSeq(choice.v6), a);
    InTexts(HostedNow(config, w, choice.node, f).value, a);
  }

  lemma IngressIsServed(config: seq<Addr>, w: World, service: Service, choice: Choice, t: Text)
    requires HostsChoice(config, w, service, choice) && t in choice.Ingress()
    ensures exists f :: f in service.families && ServedBy(config, w, choice.node, f, t)
  {
    hide HostedNow;
    var addrs := OptionSeq(choice.v4) + OptionSeq(choice.v6);
    var i :| 0 <= i < |addrs| && Texts(addrs)[i] == t;
    var f := if choice.v4.Some? && i == 0 then IPv4 else IPv6;
    assert choice.Of(f) == Some(addrs[i]);
    WantedIsServed(config, w, service, choice, f);
  }

  /** A choice whose addresses the node hosts serves the service that gets it as its status. */
  lemma ChoiceServes(config: seq<Addr>, w: World, service: Service, choice: Choice)
    requires service.ingress == choice.Ingress() && HostsChoice(config, w, service, choice)
    ensures Serves(config, w, service, choice.node) && OffersAll(config, w, service, choice.node)
  {
    hide HostedNow, ServedBy, HostsChoice, Texts;
    forall f | f in service.families
      ensures exists t :: t in service.ingress && ServedBy(config, w, choice.node, f, t)
      ensures HostedNow(config, w, choice.node, f).Ok? && HostedNow(config, w, choice.node, f).value != []
    {
      WantedIsServed(config, w, service, choice, f);
    }
    forall t | t in service.ingress
      ensures exists f :: f in service.families && ServedBy(config, w, choice.node, f, t)
    {
      IngressIsServed(config, w, service, choice, t);
    }
  }

  lemma InTexts(addrs: seq<Addr>, a: Addr)
    requires a in addrs
    ensures TextOf(a) in Texts(addrs)
  {
    var i :| 0 <= i < |addrs| && addrs[i] == a;
    assert Texts(addrs)[i] == TextOf(a);
  }

  lemma ServedMeans(config: seq<Addr>, w: World, node: string, f: Family, t: Text)
    requires ServedBy(config, w, node, f, t)
    ensures Parse(t).Some? && HostedNow(config, w, node, f).Ok? && HostedNow(config, w, node, f).value != []
  {
    hide HostedNow;
  }

  /** A served status parses. */
  lemma ServedParses(config: seq<Addr>, w: World, service: Service, node: string)
    requires Serves(config, w, service, node)
    ensures AllParse(service.ingress) && OffersAll(config, w, service, node)
  {
    hide HostedNow, ServedBy;
    forall t | t in service.ingress
      ensures Parse(t).Some?
    {
      var f :| f in service.families && ServedBy(config, w, node, f, t);
      ServedMeans(config, w, node, f, t);
    }
    forall f | f in service.families
      ensures HostedNow(config, w, node, f).Ok? && HostedNow(config, w, node, f).value != []
    {
      var t :| t in service.ingress && ServedBy(config, w, node, f, t);
      ServedMeans(config, w, node, f, t);
    }
  }

  /******* The search *******/

  lemma SearchNodeTruth(env: Env, config: seq<Addr>, w: World, service: Service, node: string)
    requires Steady(env)
    ensures var (w', found) := SearchNode(env, config, w, service, node);
            && SameView(w, w')
            && (found.Ok? <==> forall f :: f in service.families ==> HostedNow(config, w, node, f).Ok?)
            && (found.Ok? ==> found.value.node == node && forall f ::
                  found.value.Of(f) == if f in service.families && HostedNow(config, w, node, f).value != []
                                       then Some(HostedNow(config, w, node, f).value[0]) else None)
  {
    hide Hosted, HostedNow, IdOf;
    HostedTruth(env, config, w, service, IPv4, node);
    var (w1, v4) := Hosted(env, config, w, service, IPv4, node);
    HostedTruth(env, config, w1, service, IPv6, node);
    SameHosted(config, w, w1, node);
    var found := SearchNode(env, config, w, service, node).1;
    forall f | found.Ok?
      ensures f in service.families ==> HostedNow(config, w, node, f).Ok?
      ensures found.value.Of(f) == if f in service.families && HostedNow(config, w, node, f).value != []
                                   then Some(HostedNow(config, w, node, f).value[0]) else None
    {
      match f {
        case IPv4 =>
        case IPv6 =>
      }
    }
  }

  /** The first node in the order whose server has an address of every wanted family. */
  ghost function FirstOffering(config: seq<Addr>, w: World, service: Service, order: seq<string>): Option<string>
    decreases |order|
  {
    if order == [] then None
    else if OffersAll(config, w, service, order[0]) then Some(order[0])
    else FirstOffering(config, w, service, order[1..])
  }

  lemma {:induction false} SameOffering(config: seq<Addr>, w: World, w': World, service: Service, order: seq<string>)
    requires SameView(w, w')
    ensures FirstOffering(config, w', service, order) == FirstOffering(config, w, service, order)
    decreases |order|
  {
    hide OffersAll, SameView;
    if order != [] {
      SameAtAll(config, w, w', service);
      SameOffering(config, w, w', service, order[1..]);
    }
  }

  /** The search finds the first node that hosts what is wanted, if there is one and no listing is
      broken. */
  lemma {:induction false} SearchTruth(env: Env, config: seq<Addr>, w: World, service: Service, order: seq<string>)
    requires Steady(env)
    ensures var (w', found) := Search(env, config, w, service, order);
            && SameView(w, w')
            && (found.Ok? && found.value.Some? ==>
                  found.value.value.node in order && HostsChoice(config, w, service, found.value.value))
            && (found == Ok(None) && service.families != [] ==> forall n :: n in order ==> !OffersAll(config, w, service, n))
            && (found.Ok? && service.families != [] ==>
                  FirstOffering(config, w, service, order) ==
                  if found.value.Some? then Some(found.value.value.node) else None)
            && ((forall n, f :: n in order && f in service.families ==> HostedNow(config, w, n, f).Ok?) ==> found.Ok?)
    decreases |order|
  {
    hide SearchNode, HostedNow, IdOf;
    if order != [] {
      SearchNodeTruth(env, config, w, service, order[0]);
      var (w1, offer) := SearchNode(env, config, w, service, order[0]);
      assert order[0] in order;
      if offer.Ok? {
        var choice := offer.value;
        assert choice.Of(IPv4) == choice.v4 && choice.Of(IPv6) == choice.v6;
        if Complete(service, choice) {
          assert HostsChoice(config, w, service, choice) by {
            forall f | f in service.families
              ensures choice.Of(f).Some?
            {
              match f {
                case IPv4 =>
                case IPv6 =>
              }
            }
          }
        } else {
          SearchTruth(env, config, w1, service, order[1..]);
          SameAtAll(config, w, w1, service);
          SameOffering(config, w, w1, service, order[1..]);
          if service.families != [] {
            IncompleteLacks(config, w, service, choice);
          }
          assert forall n :: n in order <==> n == order[0] || n in order[1..];
        }
      }
    }
  }

  lemma IncompleteLacks(config: seq<Addr>, w: World, service: Service, choice: Choice)
    requires service.families != [] && !Complete(service, choice)
    requires forall f :: f in service.families ==> HostedNow(config, w, choice.node, f).Ok?
    requires forall f :: choice.Of(f) == if f in service.families && HostedNow(config, w, choice.node, f).value != []
                                         then Some(HostedNow(config, w, choice.node, f).value[0]) else None
    ensures !OffersAll(config, w, service, choice.node)
  {
    hide HostedNow;
    assert choice.Of(IPv4) == choice.v4 && choice.Of(IPv6) == choice.v6;
    assert service.families[0] in service.families && (service.families[0] == IPv4 || service.families[0] == IPv6);
  }

  lemma SameAtAll(config: seq<Addr>, w: World, w': World, service: Service)
    requires SameView(w, w')
    ensures forall n, f :: HostedNow(config, w', n, f) == HostedNow(config, w, n, f)
    ensures forall n :: OffersAll(config, w', service, n) <==> OffersAll(config, w, service, n)
    ensures forall c :: HostsChoice(config, w', service, c) <==> HostsChoice(config, w, service, c)
  {
    forall n, f
      ensures HostedNow(config, w', n, f) == HostedNow(config, w, n, f)
    {
      SameHosted(config, w, w', n);
    }
  }

  /******* The routing *******/

  /** SCP has the address on the server. */
  ghost predicate Placed(scp: Scp, addr: Addr, server: ServerID) {
    exists r :: r in scp.Records(addr.family) && r.text == Some(TextOf(addr)) && r.server == Some(server)
  }

  /** Every record of the family parses. */
  ghost predicate GoodTable(scp: Scp, family: Family) {
    forall r :: r in scp.Records(family) ==> r.text.Some? && Parse(r.text.value).Some?
  }

  lemma GoodTableKept(scp: Scp, scp': Scp, family: Family)
    requires SameShape(scp, scp') && GoodTable(scp, family)
    ensures GoodTable(scp', family)
  {
    forall r | r in scp'.Records(family)
      ensures r.text.Some? && Parse(r.text.value).Some?
    {
      var i :| 0 <= i < |scp'.Records(family)| && scp'.Records(family)[i] == r;
      assert scp.Records(family)[i] in scp.Records(family);
    }
  }

  lemma GoodTableHosts(config: seq<Addr>, w: World, node: string, family: Family)
    requires GoodTable(w.remote.scp, family) && IdOf(w, node).Ok?
    ensures HostedNow(config, w, node, family).Ok?
  {
    var records, id := w.remote.scp.Records(family), IdOf(w, node).value;
    RoutingLaws.OnServerMeans(records, id);
    SelectLaws.SelectIsExact(OnServer(records, id), family, config);
  }

  lemma PlacedIsHosted(config: seq<Addr>, w: World, node: string, addr: Addr)
    requires GoodTable(w.remote.scp, addr.family) && IdOf(w, node).Ok?
    requires addr in config && Placed(w.remote.scp, addr, IdOf(w, node).value)
    ensures HostedNow(config, w, node, addr.family).Ok? && addr in HostedNow(config, w, node, addr.family).value
  {
    var records, id := w.remote.scp.Records(addr.family), IdOf(w, node).value;
    RoutingLaws.OnServerMeans(records, id);
    SelectLaws.SelectIsExact(OnServer(records, id), addr.family, config);
    var r :| r in records && r.text == Some(TextOf(addr)) && r.server == Some(id);
    assert r in OnServer(records, id) && Parse(r.text.value) == Some(addr);
  }

  /** A routed address is then on the target; nothing happens to the other family. */
  lemma RoutePlaces(env: Env, r: Remote, addr: Addr, target: ServerID)
    requires Calm(env)
    ensures var (r', answer) := RouteUnderLock(env, r, addr, target);
            && (answer.Ok? ==> Placed(r'.scp, addr, target))
            && (answer.Ok? <==> exists rec :: rec in r.scp.Records(addr.family) && RoutingLaws.Carries(rec, TextOf(addr)))
            && (forall g: Family :: g != addr.family ==> r'.scp.Records(g) == r.scp.Records(g))
  {
    QuietTick(env, r);
    assert FateOf(env, r.clock) == Answered;
    var (r1, listing) := ListFailovers(env, r, addr.family, None);
    var records := r.scp.Records(addr.family);
    assert listing == Ok(records);
    RoutingLaws.FirstCompleteIsFirst(records, TextOf(addr));
    var id := FirstComplete(records, TextOf(addr));
    if id.Some? {
      var i :| RoutingLaws.FirstCarrying(records, TextOf(addr), i) && records[i].id == id;
      assert RoutingLaws.FirstCarrying(records, TextOf(addr), i);
      assert records[i] in records && RoutingLaws.Carries(records[i], TextOf(addr));
      var p := Patch(addr.family, id.value, target);
      PatchPlaces(env, r1, p, addr, i);
    }
  }

  lemma PatchPlaces(env: Env, r: Remote, p: Patch, addr: Addr, i: int)
    requires Calm(env) && p.family == addr.family
    requires 0 <= i < |r.scp.Records(addr.family)|
    requires r.scp.Records(addr.family)[i].id == Some(p.id) && r.scp.Records(addr.family)[i].text == Some(TextOf(addr))
    ensures var (r', status) := PatchFailover(env, r, p);
            && Placed(r'.scp, addr, p.target) && Await(env, r.clock, status).Ok?
            && (forall g: Family :: g != addr.family ==> r'.scp.Records(g) == r.scp.Records(g))
  {
    QuietTick(env, r);
    assert ReplyOf(env, r.clock) == PatchReply(AcceptedWithTask, true);
    assert TaskWait.Outcome(RoundsOf(env, r.clock)) == Ok(());
    var r' := PatchFailover(env, r, p).0;
    assert r'.scp == ApplyPatch(r.scp, p);
    assert r'.scp.Records(addr.family)[i] in r'.scp.Records(addr.family);
  }

  lemma {:induction false} RouteFirstPlaces(env: Env, config: seq<Addr>, w: World, addrs: seq<Addr>, family: Family, target: ServerID)
    requires Calm(env) && forall a :: a in addrs ==> a.family == family && a in config
    ensures var (w', routed) := RouteFirst(env, w, addrs, target);
            && (routed.Some? ==> routed.value in addrs && Placed(w'.remote.scp, routed.value, target))
            && (routed.None? ==> forall a :: a in addrs ==>
                  forall rec :: rec in w.remote.scp.Records(family) ==> !RoutingLaws.Carries(rec, TextOf(a)))
            && (forall g: Family :: g != family ==> w'.remote.scp.Records(g) == w.remote.scp.Records(g))
            && SameShape(w.remote.scp, w'.remote.scp)
    decreases |addrs|
  {
    hide RouteUnderLock, Placed, RoutingLaws.Carries;
    RouteFirstConfined(env, config, w, addrs, target);
    if addrs != [] {
      assert addrs[0] in addrs;
      RoutePlaces(env, w.remote, addrs[0], target);
      var (w1, answer) := Route(env, w, addrs[0], target);
      if answer.Err? {
        NothingRouted(env, w.remote, addrs[0], target);
        RouteFirstPlaces(env, config, w1, addrs[1..], family, target);
        assert forall a :: a in addrs <==> a == addrs[0] || a in addrs[1..];
      }
    }
  }

  lemma NothingRouted(env: Env, r: Remote, addr: Addr, target: ServerID)
    requires Calm(env) && RouteUnderLock(env, r, addr, target).1.Err?
    ensures RouteUnderLock(env, r, addr, target).0.scp == r.scp
  {
    QuietTick(env, r);
    assert FateOf(env, r.clock) == Answered;
    RoutePlaces(env, r, addr, target);
    RoutingLaws.FirstCompleteIsFirst(r.scp.Records(addr.family), TextOf(addr));
  }

  /** Every name resolves as before. */
  ghost predicate SameIds(w: World, w': World) {
    && w'.remote.scp.servers == w.remote.scp.servers
    && forall n :: IdOf(w', n) == IdOf(w, n)
  }

  /** Some complete record carries the canonical text of a configured address of the family. */
  ghost predicate Routable(config: seq<Addr>, scp: Scp, family: Family) {
    exists a, r :: a in config && a.family == family && r in scp.Records(family) && RoutingLaws.Carries(r, TextOf(a))
  }

  lemma RoutableKept(config: seq<Addr>, scp: Scp, scp': Scp, family: Family)
    requires SameShape(scp, scp') && Routable(config, scp, family)
    ensures Routable(config, scp', family)
  {
    var a, r :| a in config && a.family == family && r in scp.Records(family) && RoutingLaws.Carries(r, TextOf(a));
    var i :| 0 <= i < |scp.Records(family)| && scp.Records(family)[i] == r;
    assert scp'.Records(family)[i] in scp'.Records(family) && RoutingLaws.Carries(scp'.Records(family)[i], TextOf(a));
  }

  /** The attempt at a family: the listing is as good as the table, what is routed is then in
      place, and something is routed if anything can be. */
  lemma TryFamilyPlaces(env: Env, config: seq<Addr>, w: World, service: Service, family: Family, target: ServerID)
    requires Calm(env)
    ensures var (w', attempt) := TryFamily(env, config, w, service, family, target);
            && (attempt.Tried? && attempt.addr.Some? ==>
                  && attempt.addr.value.family == family && attempt.addr.value in config
                  && GoodTable(w'.remote.scp, family) && Placed(w'.remote.scp, attempt.addr.value, target))
            && (forall g: Family :: g != family ==> w'.remote.scp.Records(g) == w.remote.scp.Records(g))
            && SameShape(w.remote.scp, w'.remote.scp) && w'.cache == w.cache
            && (family in service.families && GoodTable(w.remote.scp, family) && Routable(config, w.remote.scp, family) ==>
                  attempt.Tried? && attempt.addr.Some?)
            && (family !in service.families ==> attempt == Tried(None))
  {
    hide RouteFirst, Placed, RoutingLaws.Carries, Routable;
    if family in service.families {
      ListedAll(env, config, w, family);
      var (w1, addrs) := Failovers(env, config, w, family, None);
      if addrs.Ok? {
        RouteFirstPlaces(env, config, w1, addrs.value, family, target);
        RouteFirstEvents(env, w1, addrs.value, target);
        var w2 := RouteFirst(env, w1, addrs.value, target).0;
        if Routable(config, w.remote.scp, family) {
          RoutableListed(config, w.remote.scp, family, addrs.value);
        }
        GoodTableKept(w1.remote.scp, w2.remote.scp, family);
      }
    }
  }

  lemma ListedAll(env: Env, config: seq<Addr>, w: World, family: Family)
    requires Steady(env)
    ensures var (w', addrs) := Failovers(env, config, w, family, None);
            && w'.remote.scp == w.remote.scp && w'.cache == w.cache
            && addrs == Select(w.remote.scp.Records(family), family, config)
            && (addrs.Ok? <==> GoodTable(w.remote.scp, family))
            && (addrs.Ok? ==> forall a :: a in addrs.value ==> a.family == family && a in config)
  {
    QuietTick(env, w.remote);
    assert FateOf(env, w.remote.clock) == Answered;
    SelectLaws.SelectIsExact(w.remote.scp.Records(family), family, config);
  }

  lemma RoutableListed(config: seq<Addr>, scp: Scp, family: Family, addrs: seq<Addr>)
    requires Routable(config, scp, family) && Select(scp.Records(family), family, config) == Ok(addrs)
    ensures exists a, r :: a in addrs && r in scp.Records(family) && RoutingLaws.Carries(r, TextOf(a))
  {
    SelectLaws.SelectIsExact(scp.Records(family), family, config);
    var a, r :| a in config && a.family == family && r in scp.Records(family) && RoutingLaws.Carries(r, TextOf(a));
    assert Parse(r.text.value) == Some(a);
  }

  /** SCP reports every server under its own ID. */
  ghost predicate HonestInfos(scp: Scp) {
    forall id :: id in scp.infos && scp.infos[id].Some? && scp.infos[id].value.id.Some? ==>
      scp.infos[id].value.id == Some(id)
  }

  lemma ProbeTruth(env: Env, w: World, node: string)
    requires Steady(env)
    ensures var (w', probe) := Probe(env, w, node);
            && SameView(w, w')
            && (probe.Ok? ==> IdOf(w, node).Ok? && IdOf(w, node).value in w.remote.scp.infos &&
                              probe.value == w.remote.scp.infos[IdOf(w, node).value])
            && (IdOf(w, node).Ok? && IdOf(w, node).value in w.remote.scp.infos ==> probe.Ok?)
  {
    QuietLookUp(env, w, node);
    assert FateOf(env, w.remote.clock) == Answered;
    var w1 := LookUp(env, w, node).0;
    QuietTick(env, w1.remote);
    assert FateOf(env, w1.remote.clock) == Answered;
  }

  lemma RouteToNodePlaces(env: Env, config: seq<Addr>, w: World, service: Service, node: string, target: ServerID)
    requires Calm(env) && IdOf(w, node) == Ok(target)
    ensures var (w', visit) := RouteToNode(env, config, w, service, node, target);
            && SameShape(w.remote.scp, w'.remote.scp) && SameIds(w, w')
            && (visit.Attempted? && Complete(service, visit.choice) ==>
                  visit.choice.node == node && HostsChoice(config, w', service, visit.choice))
            && ((forall f :: f in service.families ==> GoodTable(w.remote.scp, f) && Routable(config, w.remote.scp, f)) &&
                service.families != [] ==>
                  visit.Attempted? && Complete(service, visit.choice))
  {
    hide TryFamily, GoodTable, Routable, Placed, HostedNow;
    TryFamilyPlaces(env, config, w, service, IPv4, target);
    var (w1, v4) := TryFamily(env, config, w, service, IPv4, target);
    TryFamilyPlaces(env, config, w1, service, IPv6, target);
    var (w2, v6) := TryFamily(env, config, w1, service, IPv6, target);
    var (w', visit) := RouteToNode(env, config, w, service, node, target);
    assert forall n :: IdOf(w1, n) == IdOf(w, n) && IdOf(w2, n) == IdOf(w, n);
    if visit.Attempted? && Complete(service, visit.choice) {
      var choice := visit.choice;
      forall f
        ensures if f in service.families
                then HostedNow(config, w', choice.node, f).Ok? && choice.Of(f).Some? &&
                     choice.Of(f).value in HostedNow(config, w', choice.node, f).value
                else choice.Of(f).None?
      {
        match f {
          case IPv4 =>
            if IPv4 in service.families {
              SameTable(w1.remote.scp, w2.remote.scp, choice.v4.value, target);
              PlacedIsHosted(config, w', node, choice.v4.value);
            }
          case IPv6 =>
            if IPv6 in service.families {
              PlacedIsHosted(config, w', node, choice.v6.value);
            }
        }
      }
    }
    if forall f :: f in service.families ==> GoodTable(w.remote.scp, f) && Routable(config, w.remote.scp, f) {
      if IPv6 in service.families {
        GoodTableKept(w.remote.scp, w1.remote.scp, IPv6);
        RoutableKept(config, w.remote.scp, w1.remote.scp, IPv6);
      }
      assert service.families != [] ==>
          service.families[0] in service.families && (service.families[0] == IPv4 || service.families[0] == IPv6);
    }
  }

  lemma SameTable(scp: Scp, scp': Scp, addr: Addr, server: ServerID)
    requires scp'.Records(addr.family) == scp.Records(addr.family)
    ensures GoodTable(scp', addr.family) <==> GoodTable(scp, addr.family)
    ensures Placed(scp', addr, server) <==> Placed(scp, addr, server)
  {
  }

  /** A visit that routes everything leaves it in place on the visited node. */
  lemma VisitNodePlaces(env: Env, config: seq<Addr>, w: World, service: Service, node: string)
    requires Calm(env) && HonestInfos(w.remote.scp)
    ensures var (w', visit) := VisitNode(env, config, w, service, node);
            && SameShape(w.remote.scp, w'.remote.scp) && SameIds(w, w')
            && (visit.Attempted? && Complete(service, visit.choice) ==>
                  visit.choice.node == node && HostsChoice(config, w', service, visit.choice))
  {
    hide Probe, RouteToNode, HostsChoice, IdOf;
    ProbeTruth(env, w, node);
    var (w1, probe) := Probe(env, w, node);
    if probe.Ok? && !Incomplete(probe.value) && probe.value.value.live.value.state == Some(RUNNING) {
      assert IdOf(w1, node) == IdOf(w, node);
      var id := IdOf(w, node).value;
      assert w.remote.scp.infos[id].Some? && w.remote.scp.infos[id].value.id == Some(id);
      RouteToNodePlaces(env, config, w1, service, node, id);
    }
  }

  lemma {:induction false} CreatePlaces(env: Env, config: seq<Addr>, w: World, service: Service, order: seq<string>)
    requires Calm(env) && HonestInfos(w.remote.scp)
    ensures var (w', created) := Create(env, config, w, service, order);
            && SameShape(w.remote.scp, w'.remote.scp) && SameIds(w, w')
            && (created.Ok? && created.value.Some? ==>
                  created.value.value.node in order && HostsChoice(config, w', service, created.value.value))
    decreases |order|
  {
    hide VisitNode, HostsChoice, SameShape, IdOf;
    if order == [] {
      ShapeKept(w.remote, w.remote) by {
        MovesStill(w.remote);
      }
    } else {
      VisitNodePlaces(env, config, w, service, order[0]);
      var (w1, visit) := VisitNode(env, config, w, service, order[0]);
      if visit.Skipped? || (visit.Attempted? && !Complete(service, visit.choice)) {
        ShapeHonest(w.remote.scp, w1.remote.scp);
        CreatePlaces(env, config, w1, service, order[1..]);
        ShapeChains(w.remote.scp, w1.remote.scp, Create(env, config, w1, service, order[1..]).0.remote.scp);
      }
    }
  }

  lemma ShapeHonest(scp: Scp, scp': Scp)
    requires SameShape(scp, scp')
    ensures HonestInfos(scp') <==> HonestInfos(scp)
  {
  }

  lemma ShapeChains(scp: Scp, scp1: Scp, scp2: Scp)
    requires SameShape(scp, scp1) && SameShape(scp1, scp2)
    ensures SameShape(scp, scp2)
  {
  }

  /******* One call *******/

  /** No listing of a wanted family on any of these nodes is broken. */
  ghost predicate AllListed(config: seq<Addr>, w: World, service: Service, nodes: set<string>) {
    forall n, f :: n in nodes && f in service.families ==> HostedNow(config, w, n, f).Ok?
  }

  /** The balancer stands on its ready labelled node. */
  ghost predicate Standing(config: seq<Addr>, w: World, service: Service, ready: set<string>) {
    service.nodeLabel.Some? && service.nodeLabel.value in ready && Serves(config, w, service, service.nodeLabel.value)
  }

  lemma ExistsTruth(env: Env, config: seq<Addr>, w: World, service: Service)
    requires Steady(env) && service.nodeLabel.Some?
    ensures var (w', exists') := Exists(env, config, w, service);
            && SameView(w, w') && w'.remote.kube == w.remote.kube && w'.remote.issued == w.remote.issued
            && (exists'.Ok? ==> (exists'.value <==> Serves(config, w, service, service.nodeLabel.value)))
            && (Serves(config, w, service, service.nodeLabel.value) ==> exists'.Ok?)
            && (AllListed(config, w, service, {service.nodeLabel.value}) ==>
                  (exists'.Err? <==> OffersAll(config, w, service, service.nodeLabel.value) && !AllParse(service.ingress)))
  {
    hide Hosted, HostedNow, Serves, Stands, OffersAll, AllParse;
    var node := service.nodeLabel.value;
    ExistsReads(env, config, w, service);
    if Exists(env, config, w, service).1.Ok? {
      ExistsIffServed(env, config, w, service);
    }
    HostedTruth(env, config, w, service, IPv4, node);
    var (w1, v4) := Hosted(env, config, w, service, IPv4, node);
    HostedTruth(env, config, w1, service, IPv6, node);
    SameHosted(config, w, w1, node);
    if Serves(config, w, service, node) {
      ServedParses(config, w, service, node);
      OffersMeans(config, w, service, node);
    }
    OffersIff(config, w, service, node);
  }

  lemma OffersIff(config: seq<Addr>, w: World, service: Service, node: string)
    ensures AllListed(config, w, service, {node}) ==>
              (OffersAll(config, w, service, node) <==>
                 && (IPv4 in service.families ==> HostedNow(config, w, node, IPv4) != Ok([]))
                 && (IPv6 in service.families ==> HostedNow(config, w, node, IPv6) != Ok([])))
    ensures AllListed(config, w, service, {node}) ==>
              && (IPv4 in service.families ==> HostedNow(config, w, node, IPv4).Ok?)
              && (IPv6 in service.families ==> HostedNow(config, w, node, IPv6).Ok?)
  {
    hide HostedNow;
    assert forall f :: f in service.families ==> f == IPv4 || f == IPv6;
  }

  /** When a node's addresses cannot be told: its name does not resolve to a server, or some record
      on its server cannot be read. */
  lemma HostedFailsIff(config: seq<Addr>, w: World, node: string, family: Family)
    ensures HostedNow(config, w, node, family).Err? <==>
              || IdOf(w, node).Err?
              || exists r :: r in w.remote.scp.Records(family) && r.server == Some(IdOf(w, node).value) &&
                             (r.text.None? || Parse(r.text.value).None?)
  {
    if IdOf(w, node).Ok? {
      var records, id := w.remote.scp.Records(family), IdOf(w, node).value;
      RoutingLaws.OnServerMeans(records, id);
      SelectLaws.SelectIsExact(OnServer(records, id), family, config);
    }
  }

  /** A family that the decision has to consult and whose addresses on the node cannot be told:
      IPv4 if it is wanted, and IPv6 if it is wanted unless IPv4 is and has no address there. */
  ghost predicate Untold(config: seq<Addr>, w: World, service: Service, node: string) {
    || (IPv4 in service.families && HostedNow(config, w, node, IPv4).Err?)
    || (IPv6 in service.families && HostedNow(config, w, node, IPv6).Err? &&
        !(IPv4 in service.families && HostedNow(config, w, node, IPv4) == Ok([])))
  }

  /** When the decision fails instead of saying that no balancer exists. An unknown server or a
      listing that cannot be read makes it fail in any quiet environment; and when calls are
      answered it fails exactly for that, or for a stored text that does not parse on a node
      that hosts everything wanted. */
  lemma DecisionFailsIff(env: Env, config: seq<Addr>, w: World, service: Service)
    requires Quiet(env) && service.nodeLabel.Some?
    ensures var node := service.nodeLabel.value;
            var answer := Exists(env, config, w, service).1;
            && (Untold(config, w, service, node) ==> answer.Err?)
            && (AllAnswered(env) ==>
                  (answer.Err? <==>
                     Untold(config, w, service, node) ||
                     (OffersAll(config, w, service, node) && !AllParse(service.ingress))))
            && (AllAnswered(env) && IdOf(w, node).Err? && service.families != [] ==> answer == Err(IdOf(w, node).error))
            && (AllAnswered(env) && OffersAll(config, w, service, node) && !AllParse(service.ingress) ==> answer == Err(BadAddress))
  {
    hide Hosted, HostedNow, Stands, AllParse, IdOf, SameView;
    var node := service.nodeLabel.value;
    HostedReads(env, config, w, service, IPv4, node);
    var (w1, v4) := Hosted(env, config, w, service, IPv4, node);
    HostedReads(env, config, w1, service, IPv6, node);
    SameHosted(config, w, w1, node);
    assert forall f :: f in service.families ==> f == IPv4 || f == IPv6;
    assert service.families != [] ==> service.families[0] in service.families;
    assert IdOf(w, node).Err? ==> forall f :: HostedNow(config, w, node, f) == Err(IdOf(w, node).error) by {
      UnknownHosts(config, w, node);
    }
    if AllAnswered(env) {
      HostedTruth(env, config, w, service, IPv4, node);
      HostedTruth(env, config, w1, service, IPv6, node);
    }
  }

  lemma UnknownHosts(config: seq<Addr>, w: World, node: string)
    ensures IdOf(w, node).Err? ==> forall f :: HostedNow(config, w, node, f) == Err(IdOf(w, node).error)
  {
  }

  lemma OffersMeans(config: seq<Addr>, w: World, service: Service, node: string)
    requires OffersAll(config, w, service, node)
    ensures forall f :: f in service.families ==> HostedNow(config, w, node, f).Ok?
  {
  }

  /** The call would have to read the stored status, and some text in it does not parse: the
      labelled node is ready and hosts an address of every wanted family. */
  ghost predicate UnreadableStatus(config: seq<Addr>, w: World, service: Service, ready: set<string>) {
    && service.nodeLabel.Some? && service.nodeLabel.value in ready
    && OffersAll(config, w, service, service.nodeLabel.value) && !AllParse(service.ingress)
  }

  /** Keeping a balancer from a fresh copy settles label, annotation and node labels. */
  lemma KeepTruth(env: Env, config: seq<Addr>, w: World, key: Key, ready: set<string>)
    requires Steady(env) && Holds(w, key)
    ensures var service := w.remote.kube.services[key];
            var (w', kept) := Keep(env, config, w, service, ready);
            && SameView(w, w') && w'.remote.issued == w.remote.issued
            && (kept == Ok(true) ==>
                  && service.nodeLabel.Some? && service.nodeLabel.value in ready
                  && Serves(config, w, service, service.nodeLabel.value)
                  && w'.remote.kube == LabelLaws.Updated(w.remote.kube, service, service.nodeLabel.value)
                  && service.nodeLabel.value in w.remote.kube.nodes)
            && (kept == Ok(false) ==> w'.remote.kube == w.remote.kube && !Standing(config, w, service, ready))
            && (Standing(config, w, service, ready) && service.nodeLabel.value in w.remote.kube.nodes ==> kept == Ok(true))
            && (AllListed(config, w, service, ready) && (forall n :: n in ready ==> n in w.remote.kube.nodes) ==>
                  && (kept.Err? <==> UnreadableStatus(config, w, service, ready))
                  && (kept.Err? ==> w'.remote.kube == w.remote.kube))
  {
    hide Exists, Serves, OffersAll, HostedNow, AllParse, LabelSpec.Update, LabelLaws.Updated, IdOf;
    var service := w.remote.kube.services[key];
    if service.nodeLabel.Some? && service.nodeLabel.value in ready {
      var node := service.nodeLabel.value;
      assert AllListed(config, w, service, ready) ==> AllListed(config, w, service, {node});
      ExistsTruth(env, config, w, service);
      var (w1, exists') := Exists(env, config, w, service);
      if exists' == Ok(true) {
        UpdateOnlyLabels(env, w1.remote, service, node);
        SameTables(w1, Keep(env, config, w, service, ready).0);
        if LabelSpec.Update(env, w1.remote, service, node).1.Ok? {
          LabelLaws.UpdateSucceeds(env, w1.remote, service, node);
        }
        if node in w.remote.kube.nodes {
          UpdateWorks(env, w1.remote, service, node);
        }
      }
    }
  }

  /** Without changes to SCP or to what it serves, labelling anew from a fresh copy converges. */
  lemma KeptConverges(config: seq<Addr>, w: World, w': World, key: Key, ready: set<string>, node: string)
    requires Holds(w, key) && SameView(w, w')
    requires var service := w.remote.kube.services[key];
             && service.nodeLabel == Some(node) && node in ready && node in w.remote.kube.nodes
             && Serves(config, w, service, node) && w'.remote.kube == LabelLaws.Updated(w.remote.kube, service, node)
    ensures Converged(config, w', key, ready, node)
    ensures w'.remote.kube.services[key].ingress == w.remote.kube.services[key].ingress
    ensures w'.remote.kube.services[key].families == w.remote.kube.services[key].families
    ensures w'.remote.kube.nodes == w.remote.kube.nodes
  {
    hide Serves, LabelLaws.Updated;
    var service := w.remote.kube.services[key];
    LabelLaws.UpdatedMarks(w.remote.kube, service, node);
    ServesAfter(config, w, w', service, w'.remote.kube.services[key], node);
  }

  /** Recording a choice from a fresh copy: the service gets half-way there, and all the way
      unless the copy carried a label. */
  lemma EstablishTruth(env: Env, config: seq<Addr>, w: World, key: Key, ready: set<string>, choice: Choice)
    requires Calm(env) && Holds(w, key)
    requires var service := w.remote.kube.services[key];
             HostsChoice(config, w, service, choice) && choice.node in ready && service.families != []
    ensures var service := w.remote.kube.services[key];
            var (w', status) := Establish(env, w, service, choice);
            && SameView(w, w') && w'.remote.issued == w.remote.issued
            && (choice.node in w.remote.kube.nodes ==> GotStatus(status))
            && (GotStatus(status) ==>
                  && w'.remote.kube.nodes == w.remote.kube.nodes
                  && var w2 := Store(w', key, status.value.value);
                  && HalfWay(config, w2, key, ready)
                  && w2.remote.kube.services[key].families == service.families
                  && AllParse(w2.remote.kube.services[key].ingress)
                  && (service.nodeLabel.None? ==> Converged(config, w2, key, ready, choice.node)))
  {
    hide Serves, HostsChoice, LabelSpec.CreateStatus, HostedNow, AllParse, IdOf;
    var service := w.remote.kube.services[key];
    var (w', status) := Establish(env, w, service, choice);
    CreateStatusOnlyLabels(env, w.remote, service, choice.node);
    SameTables(w, w');
    if choice.node in w.remote.kube.nodes {
      CreateStatusWorks(env, w.remote, service, choice.node);
    }
    if GotStatus(status) {
      LabelLaws.StaleCopyLaw(env, w.remote, service, choice.node);
      UpdateNeedsNode(env, w.remote, service, choice.node);
      var w2 := Store(w', key, choice.Ingress());
      var stored := w2.remote.kube.services[key];
      assert stored.ingress == choice.Ingress() && stored.families == service.families;
      SameTables(w, w2);
      SameAtAll(config, w, w2, service);
      SameFamilies(config, w2, service, stored, choice);
      ChoiceServes(config, w2, stored, choice);
      ChoiceParses(choice);
    }
  }

  lemma ChoiceParses(choice: Choice)
    ensures AllParse(choice.Ingress())
  {
  }

  lemma SameTables(w: World, w': World)
    requires w'.remote.scp == w.remote.scp && w'.cache == w.cache
    ensures SameView(w, w')
  {
  }

  lemma SameFamilies(config: seq<Addr>, w: World, service: Service, service': Service, choice: Choice)
    requires service'.families == service.families
    ensures HostsChoice(config, w, service', choice) <==> HostsChoice(config, w, service, choice)
  {
  }

  lemma UpdateNeedsNode(env: Env, r: Remote, service: Service, node: string)
    requires LabelSpec.CreateStatus(env, r, service, node).1.Ok?
    ensures node in r.kube.nodes
  {
    hide LabelSpec.Update, LabelSpec.Remove, LabelLaws.Updated, LabelLaws.Removed;
    if service.nodeLabel.None? {
      LabelLaws.UpdateSucceeds(env, r, service, node);
    } else {
      LabelLaws.RemoveSucceeds(env, r, service, false);
      LabelLaws.RemovedMarks(r.kube, service, false);
      LabelLaws.UpdateSucceeds(env, LabelSpec.Remove(env, r, service, false).0, service, node);
    }
  }

  /** Searching and routing: what is chosen is then hosted by the chosen node, and no address is
      moved if some node already offers all. */
  lemma ChooseTruth(env: Env, config: seq<Addr>, w: World, service: Service, ready: set<string>,
                    searchOrder: seq<string>, createOrder: seq<string>)
    requires Calm(env) && HonestInfos(w.remote.scp) && service.families != []
    requires IsOrder(searchOrder, ready) && IsOrder(createOrder, ready)
    ensures var (w', chosen) := Choose(env, config, w, service, searchOrder, createOrder);
            && SameShape(w.remote.scp, w'.remote.scp) && SameIds(w, w') && w'.remote.kube == w.remote.kube
            && (chosen.Ok? && chosen.value.Some? ==>
                  chosen.value.value.node in ready && HostsChoice(config, w', service, chosen.value.value))
            && ((exists n :: n in ready && OffersAll(config, w, service, n)) ==>
                  SameView(w, w') && w'.remote.issued == w.remote.issued && chosen != Ok(None))
  {
    hide Search, Create, HostsChoice, OffersAll, Lacking, SoundlyFound, SoundlyRouted, Blocked, WithinBounds, IdOf;
    SearchTruth(env, config, w, service, searchOrder);
    SearchEvents(env, config, w, service, searchOrder);
    var (w1, found) := Search(env, config, w, service, searchOrder);
    SameAtAll(config, w, w1, service);
    ShapeKept(w.remote, w.remote) by {
      MovesStill(w.remote);
    }
    if found == Ok(None) {
      CreatePlaces(env, config, w1, service, createOrder);
      CreateEvents(env, config, w1, service, createOrder);
    }
  }

  /** The first call, from any labels and any status, gets the service half-way if it yields a
      status at all. */
  lemma FirstCall(env: Env, config: seq<Addr>, w: World, key: Key, ready: set<string>,
                  searchOrder: seq<string>, createOrder: seq<string>)
    requires Calm(env) && HonestInfos(w.remote.scp) && Holds(w, key) && w.remote.kube.services[key].families != []
    requires IsOrder(searchOrder, ready) && IsOrder(createOrder, ready)
    ensures var (w', status) := Reconcile(env, config, w, key, ready, searchOrder, createOrder);
            GotStatus(status) ==>
              && HalfWay(config, w', key, ready)
              && SameShape(w.remote.scp, w'.remote.scp) && SameIds(w, w') && w'.remote.kube.nodes == w.remote.kube.nodes
              && w'.remote.kube.services[key].families == w.remote.kube.services[key].families
              && AllParse(w'.remote.kube.services[key].ingress)
  {
    hide Keep, Choose, Establish, Serves, HostsChoice, OffersAll, AllParse, LabelLaws.Updated, Lacking, IdOf;
    if !GotStatus(Reconcile(env, config, w, key, ready, searchOrder, createOrder).1) {
      return;
    }
    var service := w.remote.kube.services[key];
    KeepTruth(env, config, w, key, ready);
    var (w1, kept) := Keep(env, config, w, service, ready);
    ShapeKept(w.remote, w.remote) by {
      MovesStill(w.remote);
    }
    var w' := Reconcile(env, config, w, key, ready, searchOrder, createOrder).0;
    if kept == Ok(true) {
      KeptConverges(config, w, w1, key, ready, service.nodeLabel.value);
      StoringSame(w1, key);
      assert w' == w1;
      ServedParses(config, w, service, service.nodeLabel.value);
    } else {
      ChooseTruth(env, config, w1, service, ready, searchOrder, createOrder);
      var (w2, chosen) := Choose(env, config, w1, service, searchOrder, createOrder);
      var choice := chosen.value.value;
      EstablishTruth(env, config, w2, key, ready, choice);
      var (w3, status) := Establish(env, w2, service, choice);
      assert w' == Store(w3, key, status.value.value);
      StoreKeeps(w3, key, status.value.value);
    }
  }

  lemma StoringSame(w: World, key: Key)
    requires Holds(w, key)
    ensures Store(w, key, w.remote.kube.services[key].ingress) == w
  {
    var kube := w.remote.kube;
    assert kube.services[key := kube.services[key].(ingress := kube.services[key].ingress)] == kube.services;
  }

  lemma StoreKeeps(w: World, key: Key, status: seq<Text>)
    ensures var w' := Store(w, key, status);
            && w'.remote.scp == w.remote.scp && SameView(w, w') && w'.remote.kube.nodes == w.remote.kube.nodes
            && w'.remote.issued == w.remote.issued
  {
  }

  /** A call on a service that is half-way there routes nothing, and converges if it yields a
      status. */
  lemma SecondCall(env: Env, config: seq<Addr>, w: World, key: Key, ready: set<string>,
                   searchOrder: seq<string>, createOrder: seq<string>)
    requires Calm(env) && HonestInfos(w.remote.scp) && HalfWay(config, w, key, ready)
    requires IsOrder(searchOrder, ready) && IsOrder(createOrder, ready)
    ensures var (w', status) := Reconcile(env, config, w, key, ready, searchOrder, createOrder);
            GotStatus(status) ==>
              && (exists n :: Converged(config, w', key, ready, n))
              && w'.remote.kube.services[key].ingress == status.value.value
              && w'.remote.scp == w.remote.scp && w'.remote.issued == w.remote.issued
  {
    hide Keep, Choose, Establish, Serves, HostsChoice, OffersAll, AllParse, LabelLaws.Updated, Lacking, IdOf, Converged;
    if !GotStatus(Reconcile(env, config, w, key, ready, searchOrder, createOrder).1) {
      return;
    }
    var service := w.remote.kube.services[key];
    KeepTruth(env, config, w, key, ready);
    var (w1, kept) := Keep(env, config, w, service, ready);
    var w' := Reconcile(env, config, w, key, ready, searchOrder, createOrder).0;
    if kept == Ok(true) {
      KeptConverges(config, w, w1, key, ready, service.nodeLabel.value);
      ConvergedHolds(config, w1, key, ready, service.nodeLabel.value);
      StoringSame(w1, key);
      assert w' == w1;
    } else {
      assert service.nodeLabel.None?;
      SameAtAll(config, w, w1, service);
      ChooseTruth(env, config, w1, service, ready, searchOrder, createOrder);
      var (w2, chosen) := Choose(env, config, w1, service, searchOrder, createOrder);
      var choice := chosen.value.value;
      EstablishTruth(env, config, w2, key, ready, choice);
      var (w3, status) := Establish(env, w2, service, choice);
      assert w' == Store(w3, key, status.value.value);
      StoreKeeps(w3, key, status.value.value);
      ConvergedHolds(config, w', key, ready, choice.node);
    }
  }

  lemma ConvergedHolds(config: seq<Addr>, w: World, key: Key, ready: set<string>, node: string)
    requires Converged(config, w, key, ready, node)
    ensures Holds(w, key)
  {
  }

  /** Convergence, as soon as calls yield statuses: whatever labels, marks and status the first
      call starts from, and whatever the orders, two calls on fresh copies whose statuses are
      stored leave label, annotation, the only active node and the served status in agreement. */
  lemma TwoCallsConverge(env: Env, config: seq<Addr>, w: World, key: Key, ready: set<string>,
                         search1: seq<string>, create1: seq<string>, search2: seq<string>, create2: seq<string>)
    requires Calm(env) && HonestInfos(w.remote.scp) && Holds(w, key) && w.remote.kube.services[key].families != []
    requires IsOrder(search1, ready) && IsOrder(create1, ready) && IsOrder(search2, ready) && IsOrder(create2, ready)
    ensures var (w1, status1) := Reconcile(env, config, w, key, ready, search1, create1);
            GotStatus(status1) ==>
              && Holds(w1, key)
              && var (w2, status2) := Reconcile(env, config, w1, key, ready, search2, create2);
              GotStatus(status2) ==>
                && (exists n :: Converged(config, w2, key, ready, n))
                && w2.remote.kube.services[key].ingress == status2.value.value
  {
    hide Reconcile, Converged, SameShape;
    FirstCall(env, config, w, key, ready, search1, create1);
    var (w1, status1) := Reconcile(env, config, w, key, ready, search1, create1);
    if GotStatus(status1) {
      ShapeHonest(w.remote.scp, w1.remote.scp);
      SecondCall(env, config, w1, key, ready, search2, create2);
    }
  }

  /******* At rest *******/

  lemma {:induction false} ClearNothing(kube: Kube, nodes: seq<string>, labelName: string, node: string)
    requires forall n :: n in nodes ==> n == node
    ensures LabelLaws.ClearEach(kube, nodes, labelName, Some(node)) == kube
    decreases |nodes|
  {
    if nodes != [] {
      assert nodes[0] in nodes;
      assert forall n :: n in nodes[1..] ==> n in nodes;
      ClearNothing(kube, nodes[1..], labelName, node);
    }
  }

  lemma UpdatingChangesNothing(kube: Kube, service: Service, node: string)
    requires LabelLaws.Fresh(kube, service) && kube.Active(LabelName(service.name)) == {node}
    requires service.nodeLabel == Some(node) && service.nodeAnnotation == Some(node)
    ensures LabelLaws.Updated(kube, service, node) == kube
  {
    var labelName := LabelName(service.name);
    forall n | n in LabelLaws.MarkedIn(kube, labelName)
      ensures n == node
    {
      assert n in kube.Active(labelName);
    }
    ClearNothing(kube, LabelLaws.MarkedIn(kube, labelName), labelName, node);
    assert LabelSpec.Labelled(service, node) == service;
    assert kube.services[service.Key() := service] == kube.services;
    assert node in kube.Active(labelName);
    assert kube.marks[(node, labelName) := "true"] == kube.marks;
  }

  /** A converged service stays exactly as it is: the call yields the stored status, sends no
      routing PATCH and changes no label, whatever the orders. */
  lemma ConvergedIsFixed(env: Env, config: seq<Addr>, w: World, key: Key, ready: set<string>, node: string,
                         searchOrder: seq<string>, createOrder: seq<string>)
    requires Calm(env) && Converged(config, w, key, ready, node)
    ensures var (w', status) := Reconcile(env, config, w, key, ready, searchOrder, createOrder);
            && status == Ok(Some(w.remote.kube.services[key].ingress))
            && w'.remote.kube == w.remote.kube && w'.remote.scp == w.remote.scp && w'.remote.issued == w.remote.issued
            && Converged(config, w', key, ready, node)
  {
    hide Keep, Serves, LabelLaws.Updated, IdOf;
    var service := w.remote.kube.services[key];
    KeepTruth(env, config, w, key, ready);
    var (w1, kept) := Keep(env, config, w, service, ready);
    UpdatingChangesNothing(w.remote.kube, service, node);
    StoringSame(w1, key);
    ServesAfter(config, w, w1, service, service, node);
  }

  /** The iteration orders of one further call. */
  datatype Orders = Orders(search: seq<string>, create: seq<string>)

  ghost function Again(env: Env, config: seq<Addr>, w: World, key: Key, ready: set<string>, orders: seq<Orders>): (World, seq<Result<Option<seq<Text>>>>)
    decreases |orders|
  {
    if orders == [] || !Holds(w, key) then (w, [])
    else
      var (w1, status) := Reconcile(env, config, w, key, ready, orders[0].search, orders[0].create);
      var (w2, rest) := Again(env, config, w1, key, ready, orders[1..]);
      (w2, [status] + rest)
  }

  /** Any number of further calls all yield the same status and leave both stores alone. */
  lemma {:induction false} ConvergedForever(env: Env, config: seq<Addr>, w: World, key: Key, ready: set<string>, node: string, orders: seq<Orders>)
    requires Calm(env) && Converged(config, w, key, ready, node)
    ensures var (w', statuses) := Again(env, config, w, key, ready, orders);
            && |statuses| == |orders|
            && (forall i :: 0 <= i < |orders| ==> statuses[i] == Ok(Some(w.remote.kube.services[key].ingress)))
            && w'.remote.kube == w.remote.kube && w'.remote.scp == w.remote.scp && w'.remote.issued == w.remote.issued
    decreases |orders|
  {
    hide Reconcile;
    if orders != [] {
      ConvergedIsFixed(env, config, w, key, ready, node, orders[0].search, orders[0].create);
      var w1 := Reconcile(env, config, w, key, ready, orders[0].search, orders[0].create).0;
      ConvergedForever(env, config, w1, key, ready, node, orders[1..]);
    }
  }

  /******* Calls do yield statuses *******/

  /** What SCP says of a node's server. */
  ghost predicate Runs(w: World, node: string) {
    && IdOf(w, node).Ok? && IdOf(w, node).value in w.remote.scp.infos
    && ShowsRunning(w.remote.scp.infos[IdOf(w, node).value], IdOf(w, node).value)
  }

  /** The server resolves and has a detail answer; live information comes with a state. */
  ghost predicate Known(w: World, node: string) {
    && IdOf(w, node).Ok? && IdOf(w, node).value in w.remote.scp.infos
    && var info := w.remote.scp.infos[IdOf(w, node).value];
       !Incomplete(info) ==> info.value.live.value.state.Some?
  }

  /** Every ready node is known to Kubernetes and to SCP, and the tables of the wanted families
      parse. */
  ghost predicate Readable(w: World, key: Key, ready: set<string>) {
    && Holds(w, key) && HonestInfos(w.remote.scp)
    && (forall f :: f in w.remote.kube.services[key].families ==> GoodTable(w.remote.scp, f))
    && (forall n :: n in ready ==> n in w.remote.kube.nodes && Known(w, n))
  }

  /** Besides, some family is wanted, each has a routable configured address, and some ready node
      runs. */
  ghost predicate Prepared(config: seq<Addr>, w: World, key: Key, ready: set<string>) {
    && Readable(w, key, ready)
    && var service := w.remote.kube.services[key];
    && service.families != []
    && (forall f :: f in service.families ==> Routable(config, w.remote.scp, f))
    && (exists n :: n in ready && Runs(w, n))
  }

  /** Nothing stands in the way of a call. */
  ghost predicate Healthy(config: seq<Addr>, w: World, key: Key, ready: set<string>) {
    Prepared(config, w, key, ready) && !UnreadableStatus(config, w, w.remote.kube.services[key], ready)
  }

  lemma ReadableLists(config: seq<Addr>, w: World, key: Key, ready: set<string>)
    requires Readable(w, key, ready)
    ensures AllListed(config, w, w.remote.kube.services[key], ready)
  {
    hide HostedNow, GoodTable, Routable;
    forall n, f | n in ready && f in w.remote.kube.services[key].families
      ensures HostedNow(config, w, n, f).Ok?
    {
      assert Known(w, n);
      GoodTableHosts(config, w, n, f);
    }
  }

  lemma SameKnown(w: World, w': World, node: string)
    requires SameShape(w.remote.scp, w'.remote.scp) && SameIds(w, w')
    ensures Known(w', node) <==> Known(w, node)
    ensures Runs(w', node) <==> Runs(w, node)
  {
    assert IdOf(w', node) == IdOf(w, node);
  }

  /** Visiting a known node skips it or, if it runs, routes everything that is wanted. */
  lemma VisitNodeWorks(env: Env, config: seq<Addr>, w: World, service: Service, node: string)
    requires Calm(env) && HonestInfos(w.remote.scp) && Known(w, node) && service.families != []
    requires forall f :: f in service.families ==> GoodTable(w.remote.scp, f) && Routable(config, w.remote.scp, f)
    ensures var visit := VisitNode(env, config, w, service, node).1;
            if Runs(w, node) then visit.Attempted? && Complete(service, visit.choice) && visit.choice.node == node
            else visit.Skipped?
  {
    hide Probe, RouteToNode, GoodTable, Routable, IdOf, HostsChoice;
    ProbeTruth(env, w, node);
    var (w1, probe) := Probe(env, w, node);
    var id := IdOf(w, node).value;
    assert probe.Ok? && probe.value == w.remote.scp.infos[id];
    if Runs(w, node) {
      assert IdOf(w1, node) == IdOf(w, node);
      RouteToNodePlaces(env, config, w1, service, node, id);
    } else if !Incomplete(probe.value) {
      assert w.remote.scp.infos[id].value.id == Some(id);
    }
  }

  /** The first node in the order whose server SCP shows running. */
  ghost function FirstRunning(w: World, order: seq<string>): Option<string>
    decreases |order|
  {
    if order == [] then None
    else if Runs(w, order[0]) then Some(order[0])
    else FirstRunning(w, order[1..])
  }

  lemma {:induction false} SameRunning(w: World, w': World, order: seq<string>)
    requires SameShape(w.remote.scp, w'.remote.scp) && SameIds(w, w')
    ensures FirstRunning(w', order) == FirstRunning(w, order)
    decreases |order|
  {
    hide SameShape, SameIds, Runs, Known;
    if order != [] {
      SameKnown(w, w', order[0]);
      SameRunning(w, w', order[1..]);
    }
  }

  lemma {:induction false} CreateWorks(env: Env, config: seq<Addr>, w: World, service: Service, order: seq<string>)
    requires Calm(env) && HonestInfos(w.remote.scp) && service.families != []
    requires forall f :: f in service.families ==> GoodTable(w.remote.scp, f) && Routable(config, w.remote.scp, f)
    requires forall n :: n in order ==> Known(w, n)
    requires exists n :: n in order && Runs(w, n)
    ensures var created := Create(env, config, w, service, order).1;
            created.Ok? && created.value.Some? && FirstRunning(w, order) == Some(created.value.value.node)
    decreases |order|
  {
    hide VisitNode, GoodTable, Routable, HostsChoice, Known, Runs, SameShape, SameIds, HonestInfos;
    assert order[0] in order;
    VisitNodeWorks(env, config, w, service, order[0]);
    if !Runs(w, order[0]) {
      VisitNodePlaces(env, config, w, service, order[0]);
      var w1 := VisitNode(env, config, w, service, order[0]).0;
      ShapeHonest(w.remote.scp, w1.remote.scp);
      forall f | f in service.families
        ensures GoodTable(w1.remote.scp, f) && Routable(config, w1.remote.scp, f)
      {
        GoodTableKept(w.remote.scp, w1.remote.scp, f);
        RoutableKept(config, w.remote.scp, w1.remote.scp, f);
      }
      forall n | n in order
        ensures (Known(w1, n) <==> Known(w, n)) && (Runs(w1, n) <==> Runs(w, n))
      {
        SameKnown(w, w1, n);
      }
      var n :| n in order && Runs(w, n);
      assert n in order[1..];
      CreateWorks(env, config, w1, service, order[1..]);
      SameRunning(w, w1, order[1..]);
    }
  }

  /** A healthy call yields a status. */
  lemma HealthyCallWorks(env: Env, config: seq<Addr>, w: World, key: Key, ready: set<string>,
                         searchOrder: seq<string>, createOrder: seq<string>)
    requires Calm(env) && Healthy(config, w, key, ready)
    requires IsOrder(searchOrder, ready) && IsOrder(createOrder, ready)
    ensures GotStatus(Reconcile(env, config, w, key, ready, searchOrder, createOrder).1)
  {
    hide Keep, Search, Create, Establish, Serves, HostsChoice, HostedNow, GoodTable, Routable, AllParse, LabelLaws.Updated, Lacking, IdOf, Known, Runs, OffersAll, UnreadableStatus;
    var service := w.remote.kube.services[key];
    ReadableLists(config, w, key, ready);
    KeepTruth(env, config, w, key, ready);
    var (w1, kept) := Keep(env, config, w, service, ready);
    if kept == Ok(false) {
      SameAtAll(config, w, w1, service);
      SearchTruth(env, config, w1, service, searchOrder);
      var (w2, found) := Search(env, config, w1, service, searchOrder);
      if found == Ok(None) {
        ShapeKept(w.remote, w.remote) by {
          MovesStill(w.remote);
        }
        forall n | n in createOrder
          ensures (Known(w2, n) <==> Known(w, n)) && (Runs(w2, n) <==> Runs(w, n))
        {
          SameKnown(w, w2, n);
        }
        CreateWorks(env, config, w2, service, createOrder);
      }
      ChooseTruth(env, config, w1, service, ready, searchOrder, createOrder);
      var (w3, chosen) := Choose(env, config, w1, service, searchOrder, createOrder);
      EstablishTruth(env, config, w3, key, ready, chosen.value.value);
    }
  }

  /** When a prepared service gets a status: exactly unless the call would have to read a stored
      status that does not parse. A call that fails for that reason changes neither store, so
      that further calls fail like it. */
  lemma StatusIffReadable(env: Env, config: seq<Addr>, w: World, key: Key, ready: set<string>,
                          searchOrder: seq<string>, createOrder: seq<string>)
    requires Calm(env) && Prepared(config, w, key, ready)
    requires IsOrder(searchOrder, ready) && IsOrder(createOrder, ready)
    ensures var service := w.remote.kube.services[key];
            var (w', status) := Reconcile(env, config, w, key, ready, searchOrder, createOrder);
            && (GotStatus(status) <==> !UnreadableStatus(config, w, service, ready))
            && (UnreadableStatus(config, w, service, ready) ==>
                  && status.Err? && w'.remote.kube == w.remote.kube && w'.remote.scp == w.remote.scp
                  && Prepared(config, w', key, ready) && UnreadableStatus(config, w', service, ready))
  {
    hide Keep, Choose, Establish, GoodTable, Routable, AllParse, OffersAll, Known, Runs, IdOf, HostedNow, SameView, LabelLaws.Updated;
    var service := w.remote.kube.services[key];
    if UnreadableStatus(config, w, service, ready) {
      ReadableLists(config, w, key, ready);
      KeepTruth(env, config, w, key, ready);
      var (w1, kept) := Keep(env, config, w, service, ready);
      SameAtAll(config, w, w1, service);
      ViewKeepsPrepared(config, w, w1, key, ready);
    } else {
      HealthyCallWorks(env, config, w, key, ready, searchOrder, createOrder);
    }
  }

  lemma ViewKeepsPrepared(config: seq<Addr>, w: World, w': World, key: Key, ready: set<string>)
    requires SameView(w, w') && w'.remote.kube == w.remote.kube && Prepared(config, w, key, ready)
    ensures Prepared(config, w', key, ready) && w'.remote.scp == w.remote.scp
  {
    hide GoodTable, Routable, IdOf;
    forall n
      ensures (Known(w', n) <==> Known(w, n)) && (Runs(w', n) <==> Runs(w, n))
    {
      assert IdOf(w', n) == IdOf(w, n);
    }
  }

  lemma HealthyKept(config: seq<Addr>, w: World, w': World, key: Key, ready: set<string>)
    requires Healthy(config, w, key, ready)
    requires SameShape(w.remote.scp, w'.remote.scp) && SameIds(w, w') && w'.remote.kube.nodes == w.remote.kube.nodes
    requires Holds(w', key) && w'.remote.kube.services[key].families == w.remote.kube.services[key].families
    requires AllParse(w'.remote.kube.services[key].ingress)
    ensures Healthy(config, w', key, ready)
  {
    hide GoodTable, Routable, AllParse, OffersAll, Known, Runs, SameShape, SameIds, HonestInfos;
    ShapeHonest(w.remote.scp, w'.remote.scp);
    forall f | f in w'.remote.kube.services[key].families
      ensures GoodTable(w'.remote.scp, f) && Routable(config, w'.remote.scp, f)
    {
      GoodTableKept(w.remote.scp, w'.remote.scp, f);
      RoutableKept(config, w.remote.scp, w'.remote.scp, f);
    }
    forall n
      ensures (Known(w', n) <==> Known(w, n)) && (Runs(w', n) <==> Runs(w, n))
    {
      SameKnown(w, w', n);
    }
  }

  /** Convergence: in a calm environment and from any labels, annotations and node labels of a
      healthy service, both of two calls yield a status, the second leaves everything in
      agreement on one ready node, and all further calls change nothing. */
  lemma Converges(env: Env, config: seq<Addr>, w: World, key: Key, ready: set<string>,
                  search1: seq<string>, create1: seq<string>, search2: seq<string>, create2: seq<string>, orders: seq<Orders>)
    requires Calm(env) && Healthy(config, w, key, ready)
    requires IsOrder(search1, ready) && IsOrder(create1, ready) && IsOrder(search2, ready) && IsOrder(create2, ready)
    ensures var (w1, status1) := Reconcile(env, config, w, key, ready, search1, create1);
            && GotStatus(status1) && Holds(w1, key)
            && var (w2, status2) := Reconcile(env, config, w1, key, ready, search2, create2);
            && GotStatus(status2)
            && (exists n :: Converged(config, w2, key, ready, n))
            && w2.remote.kube.services[key].ingress == status2.value.value
            && var (w3, statuses) := Again(env, config, w2, key, ready, orders);
            && |statuses| == |orders| && (forall i :: 0 <= i < |orders| ==> statuses[i] == status2)
            && w3.remote.kube == w2.remote.kube && w3.remote.scp == w2.remote.scp && w3.remote.issued == w2.remote.issued
  {
    hide Reconcile, Converged, SameShape, SameIds, Again, AllParse, Known, Runs, GoodTable, Routable;
    HealthyCallWorks(env, config, w, key, ready, search1, create1);
    FirstCall(env, config, w, key, ready, search1, create1);
    var w1 := Reconcile(env, config, w, key, ready, search1, create1).0;
    HealthyKept(config, w, w1, key, ready);
    HealthyCallWorks(env, config, w1, key, ready, search2, create2);
    SecondCall(env, config, w1, key, ready, search2, create2);
    var w2 := Reconcile(env, config, w1, key, ready, search2, create2).0;
    var n :| Converged(config, w2, key, ready, n);
    ConvergedHolds(config, w2, key, ready, n);
    ConvergedForever(env, config, w2, key, ready, n, orders);
  }
}
