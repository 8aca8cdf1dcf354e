/** How many calls convergence takes: when one is enough, and that two can be needed. */
module CallsNeeded {
  import opened Basics
  import opened Stores
  import opened CloudSpec
  import opened BalancerSpec
  import opened SearchLaws
  import opened BalancerLaws
  import opened ConfinementLaws
  import opened Convergence
  import LabelSpec
  import LabelLaws
  import RoutingLaws
  import TaskWait

  /** Recording a chosen node from this copy leaves label and annotation in place: the copy
      has no label, or neither its label nor its annotation is that node already. */
  ghost predicate CopyAllows(service: Service, node: string) {
    service.nodeLabel.None? || (service.nodeLabel != Some(node) && service.nodeAnnotation != Some(node))
  }

  lemma EstablishConvergesIff(env: Env, config: seq<Addr>, w: World, key: Key, ready: set<string>, choice: Choice)
    requires Calm(env) && Holds(w, key) && w.remote.kube.services[key].families != [] && choice.node in ready
    requires HostsChoice(config, w, w.remote.kube.services[key], choice)
    requires GotStatus(Establish(env, w, w.remote.kube.services[key], choice).1)
    ensures var service := w.remote.kube.services[key];
            var w' := Store(Establish(env, w, service, choice).0, key, choice.Ingress());
            (exists n :: Converged(config, w', key, ready, n)) <==> CopyAllows(service, choice.node)
  {
    hide Serves, HostsChoice, LabelSpec.CreateStatus, HostedNow, OffersAll, IdOf, SameView;
    var service := w.remote.kube.services[key];
    var w1 := Establish(env, w, service, choice).0;
    CreateStatusOnlyLabels(env, w.remote, service, choice.node);
    LabelLaws.StaleCopyLaw(env, w.remote, service, choice.node);
    UpdateNeedsNode(env, w.remote, service, choice.node);
    var w' := Store(w1, key, choice.Ingress());
    var stored := w'.remote.kube.services[key];
    SameTables(w, w');
    SameAtAll(config, w, w', service);
    SameFamilies(config, w', service, stored, choice);
    ChoiceServes(config, w', stored, choice);
    assert forall n :: w'.remote.kube.Marked(n, LabelName(service.name)) <==> w1.remote.kube.Marked(n, LabelName(service.name));
    assert w'.remote.kube.Active(LabelName(service.name)) == {choice.node};
    if CopyAllows(service, choice.node) {
      assert Converged(config, w', key, ready, choice.node);
    }
  }

  /** What the call chooses when it does not keep the standing balancer. */
  ghost function Chosen(env: Env, config: seq<Addr>, w: World, service: Service, ready: set<string>,
                        searchOrder: seq<string>, createOrder: seq<string>): Result<Option<Choice>>
  {
    Choose(env, config, Keep(env, config, w, service, ready).0, service, searchOrder, createOrder).1
  }

  /** One call that yields a status converges exactly if it kept the standing balancer or chose
      a node that neither the label nor the annotation of a labelled copy named already. */
  lemma CallConvergesIff(env: Env, config: seq<Addr>, w: World, key: Key, ready: set<string>,
                            searchOrder: seq<string>, createOrder: seq<string>)
    requires Calm(env) && HonestInfos(w.remote.scp) && Holds(w, key) && w.remote.kube.services[key].families != []
    requires IsOrder(searchOrder, ready) && IsOrder(createOrder, ready)
    ensures var service := w.remote.kube.services[key];
            var (w', status) := Reconcile(env, config, w, key, ready, searchOrder, createOrder);
            var chosen := Chosen(env, config, w, service, ready, searchOrder, createOrder);
            GotStatus(status) ==>
              ((exists n :: Converged(config, w', key, ready, n)) <==>
                 || Keep(env, config, w, service, ready).1 == Ok(true)
                 || (chosen.Ok? && chosen.value.Some? && CopyAllows(service, chosen.value.value.node)))
  {
    hide Keep, Choose, LabelSpec.CreateStatus, Serves, HostsChoice, OffersAll, LabelLaws.Updated, IdOf, Converged, SameView, SameShape, SameIds;
    if !GotStatus(Reconcile(env, config, w, key, ready, searchOrder, createOrder).1) {
      return;
    }
    var service := w.remote.kube.services[key];
    KeepTruth(env, config, w, key, ready);
    var (w1, kept) := Keep(env, config, w, service, ready);
    if kept == Ok(true) {
      KeptConverges(config, w, w1, key, ready, service.nodeLabel.value);
      ConvergedHolds(config, w1, key, ready, service.nodeLabel.value);
      StoringSame(w1, key);
    } else {
      ViewHonest(w, w1);
      ChooseTruth(env, config, w1, service, ready, searchOrder, createOrder);
      var (w2, chosen) := Choose(env, config, w1, service, searchOrder, createOrder);
      EstablishConvergesIff(env, config, w2, key, ready, chosen.value.value);
      var (w3, status) := Establish(env, w2, service, chosen.value.value);
      assert status == Ok(Some(chosen.value.value.Ingress()));
      assert Reconcile(env, config, w, key, ready, searchOrder, createOrder).0 == Store(w3, key, status.value.value);
    }
  }

  /** Where a call that does not keep the balancer will move it, going by the tables and the orders:
      the first node that hosts everything wanted, or else the first one running. */
  ghost function NextHome(config: seq<Addr>, w: World, service: Service, searchOrder: seq<string>, createOrder: seq<string>): Option<string> {
    var offering := FirstOffering(config, w, service, searchOrder);
    if offering.Some? then offering else FirstRunning(w, createOrder)
  }

  lemma ChoosesNextHome(env: Env, config: seq<Addr>, w: World, key: Key, ready: set<string>,
                        searchOrder: seq<string>, createOrder: seq<string>)
    requires Calm(env) && Healthy(config, w, key, ready)
    requires IsOrder(searchOrder, ready) && IsOrder(createOrder, ready)
    ensures var service := w.remote.kube.services[key];
            var chosen := Chosen(env, config, w, service, ready, searchOrder, createOrder);
            Keep(env, config, w, service, ready).1 == Ok(false) ==>
              && chosen.Ok? && chosen.value.Some?
              && NextHome(config, w, service, searchOrder, createOrder) == Some(chosen.value.value.node)
  {
    hide Keep, Search, Create, Serves, HostsChoice, HostedNow, GoodTable, Routable, AllParse, LabelLaws.Updated, Lacking, IdOf, Known, Runs, OffersAll, UnreadableStatus;
    var service := w.remote.kube.services[key];
    ReadableLists(config, w, key, ready);
    KeepTruth(env, config, w, key, ready);
    var (w1, kept) := Keep(env, config, w, service, ready);
    if kept != Ok(false) {
      return;
    }
    SameAtAll(config, w, w1, service);
    SameOffering(config, w, w1, service, searchOrder);
    SearchTruth(env, config, w1, service, searchOrder);
    var (w2, found) := Search(env, config, w1, service, searchOrder);
    if found == Ok(None) {
      ShapeKept(w.remote, w.remote) by {
        MovesStill(w.remote);
      }
      forall n | n in createOrder
        ensures (Known(w2, n) <==> Known(w, n)) && (Runs(w2, n) <==> Runs(w, n))
      {
        SameKnown(w, w2, n);
      }
      CreateWorks(env, config, w2, service, createOrder);
      SameRunning(w, w2, createOrder);
    }
  }

  /** When one call is enough, by what can be looked up before it: the balancer stands on its
      ready labelled node, the service has no label, or its next home is neither the node of its
      label nor that of its annotation. */
  lemma OneCallConvergesIff(env: Env, config: seq<Addr>, w: World, key: Key, ready: set<string>,
                            searchOrder: seq<string>, createOrder: seq<string>)
    requires Calm(env) && Healthy(config, w, key, ready)
    requires IsOrder(searchOrder, ready) && IsOrder(createOrder, ready)
    ensures var service := w.remote.kube.services[key];
            var w' := Reconcile(env, config, w, key, ready, searchOrder, createOrder).0;
            var home := NextHome(config, w, service, searchOrder, createOrder);
            (exists n :: Converged(config, w', key, ready, n)) <==>
              || Standing(config, w, service, ready)
              || service.nodeLabel.None?
              || (home != service.nodeLabel && home != service.nodeAnnotation)
  {
    hide Keep, Choose, Reconcile, Converged, Serves, OffersAll, Runs, Known, GoodTable, Routable, AllParse, UnreadableStatus, NextHome, LabelLaws.Updated, IdOf;
    var service := w.remote.kube.services[key];
    HealthyCallWorks(env, config, w, key, ready, searchOrder, createOrder);
    CallConvergesIff(env, config, w, key, ready, searchOrder, createOrder);
    ReadableLists(config, w, key, ready);
    KeepTruth(env, config, w, key, ready);
    var kept := Keep(env, config, w, service, ready).1;
    assert kept.Ok?;
    if !kept.value {
      assert kept == Ok(false);
      ChoosesNextHome(env, config, w, key, ready, searchOrder, createOrder);
    } else {
      assert kept == Ok(true);
      assert Standing(config, w, service, ready);
    }
  }

  lemma ViewHonest(w: World, w': World)
    requires SameView(w, w') && HonestInfos(w.remote.scp)
    ensures HonestInfos(w'.remote.scp)
  {
  }

  /******* Two calls can be needed *******/

  const ADDRESS := Addr(IPv4, 1)
  const SERVICE := Service("default", "web", [IPv4], Some("node"), Some("node"), [])

  /** One running node that hosts the only address, and one service. */
  ghost function OneNode(service: Service): World {
    World(Remote(Scp([Record(Some(1), Some(Canonical(ADDRESS)), Some(7))], [], [Server(Some("node"), Some(7))],
                     map[7 := Some(ServerInfo(Some(7), Some(LiveInfo(Some(RUNNING)))))]),
                 Kube(map[service.Key() := service], [service.Key()], ["node"], map[]), 0, []), map[], [])
  }

  /** Every call is answered, every task is seen FINISHED at the first poll, nobody interferes. */
  ghost function CalmEnv(): (env: Env)
    ensures Calm(env)
  {
    var rounds: TaskWait.Stream := (k: nat) => TaskWait.Round(TaskWait.Reported(Some(TaskWait.FINISHED)), false);
    assert !TaskWait.GoesOn(TaskWait.At(rounds, 0));
    assert TaskWait.DecidesAt(rounds, 0);
    TaskWait.OutcomeIsFirst(rounds, 0);
    RawEnv((t: nat, s: Scp) => s, (t: nat) => [], (t: nat) => Answered,
           (t: nat) => PatchReply(AcceptedWithTask, true), (t: nat) => rounds)
  }

  lemma OnlyRecord(records: seq<Record>, record: Record)
    requires records == [record] && record.server == Some(7) && record.text == Some(TextOf(ADDRESS))
    ensures Select(OnServer(records, 7), IPv4, [ADDRESS]) == Ok([ADDRESS])
  {
    assert records[1..] == [];
    assert OnServer(records[1..], 7) == [];
    assert OnServer(records, 7) == [record] && [record][1..] == [];
    assert Select([record][1..], IPv4, [ADDRESS]) == Ok([]);
    assert Parse(record.text.value) == Some(ADDRESS) && ADDRESS in [ADDRESS];
    assert [ADDRESS] + [] == [ADDRESS];
  }

  lemma OneNodeIsPrepared(service: Service)
    requires service.families == [IPv4]
    ensures Prepared([ADDRESS], OneNode(service), service.Key(), {"node"})
    ensures HostedNow([ADDRESS], OneNode(service), "node", IPv4) == Ok([ADDRESS])
  {
    var w := OneNode(service);
    assert IdOf(w, "node") == Ok(7);
    assert RoutingLaws.Carries(w.remote.scp.v4[0], TextOf(ADDRESS));
    assert Routable([ADDRESS], w.remote.scp, IPv4) by {
      assert ADDRESS in [ADDRESS] && w.remote.scp.v4[0] in w.remote.scp.Records(IPv4);
    }
    assert GoodTable(w.remote.scp, IPv4);
    assert HonestInfos(w.remote.scp);
    assert Runs(w, "node") && Known(w, "node");
    OnlyRecord(w.remote.scp.v4, w.remote.scp.v4[0]);
  }

  /** The bound of two calls is tight: in a calm environment there is a healthy service that one
      call does not bring to rest. */
  lemma OneCallCanFallShort()
    ensures exists env: Env, config, w, key, ready, order ::
              && Calm(env) && Healthy(config, w, key, ready) && IsOrder(order, ready)
              && forall n :: !Converged(config, Reconcile(env, config, w, key, ready, order, order).0, key, ready, n)
  {
    hide Keep, Choose, Reconcile, Converged, Calm, Prepared, HostedNow, HostsChoice, SameView;
    var env, config, w, key, ready, order := CalmEnv(), [ADDRESS], OneNode(SERVICE), SERVICE.Key(), {"node"}, ["node"];
    assert IsOrder(order, ready);
    OneNodeIsPrepared(SERVICE);
    assert Healthy(config, w, key, ready);
    HealthyCallWorks(env, config, w, key, ready, order, order);
    assert !Serves(config, w, SERVICE, "node") by {
      assert IPv4 in SERVICE.families;
    }
    assert OffersAll(config, w, SERVICE, "node") by {
      assert forall f :: f in SERVICE.families ==> f == IPv4;
    }
    assert NextHome(config, w, SERVICE, order, order) == Some("node");
    OneCallConvergesIff(env, config, w, key, ready, order, order);
    assert Calm(env) && Healthy(config, w, key, ready) && IsOrder(order, ready);
  }

  /******* A status that does not parse *******/

  /** A stored status that does not parse makes every call fail on a service whose ready labelled
      node hosts what it wants. With the same status a service that is labelled with a node that
      is gone, or with none, gets a new one. */
  lemma UnreadableStatusMatters(env: Env, bad: Service)
    requires Calm(env) && bad == SERVICE.(ingress := [Garbage(0)])
    ensures var order := ["node"];
            && Reconcile(env, [ADDRESS], OneNode(bad), bad.Key(), {"node"}, order, order).1.Err?
            && (forall named :: named != Some("node") ==>
                  var other := bad.(nodeLabel := named);
                  GotStatus(Reconcile(env, [ADDRESS], OneNode(other), other.Key(), {"node"}, order, order).1))
  {
    hide Reconcile, Prepared, HostedNow, Calm;
    var order := ["node"];
    OneNodeIsPrepared(bad);
    assert UnreadableStatus([ADDRESS], OneNode(bad), bad, {"node"}) by {
      assert bad.ingress[0] in bad.ingress && Parse(bad.ingress[0]).None?;
    }
    PreparedHolds([ADDRESS], OneNode(bad), bad.Key(), {"node"});
    StatusIffReadable(env, [ADDRESS], OneNode(bad), bad.Key(), {"node"}, order, order);
    forall named | named != Some("node")
      ensures var other := bad.(nodeLabel := named);
              Holds(OneNode(other), other.Key()) &&
              GotStatus(Reconcile(env, [ADDRESS], OneNode(other), other.Key(), {"node"}, order, order).1)
    {
      var other := bad.(nodeLabel := named);
      OneNodeIsPrepared(other);
      PreparedHolds([ADDRESS], OneNode(other), other.Key(), {"node"});
      StatusIffReadable(env, [ADDRESS], OneNode(other), other.Key(), {"node"}, order, order);
    }
  }

  lemma PreparedHolds(config: seq<Addr>, w: World, key: Key, ready: set<string>)
    requires Prepared(config, w, key, ready)
    ensures Holds(w, key)
  {
  }
}
