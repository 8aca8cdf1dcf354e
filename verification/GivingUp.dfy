/** When a call comes back with nothing and no error, exactly; and that it is never an error that
    addresses cannot be routed. */
module GivingUp {
  import opened Basics
  import opened Stores
  import opened CloudSpec
  import opened BalancerSpec
  import opened EventLaws
  import opened WorldLaws
  import opened SearchLaws
  import opened CreationLaws
  import opened BalancerLaws
  import opened ConfinementLaws
  import opened Convergence
  import LabelSpec
  import LabelLaws
  import RoutingLaws
  import SelectLaws

  /** Without a ready node a call comes back with nothing, makes no call and changes nothing,
      whatever the environment. */
  lemma NoReadyNode(env: Env, config: seq<Addr>, w: World, service: Service)
    ensures Ensure(env, config, w, service, {}, [], []) == (w, Ok(None))
  {
  }

  /** A call gives up at once when a wanted family has no configured address listed. */
  lemma CallStops(env: Env, config: seq<Addr>, w: World, service: Service, ready: set<string>,
                  searchOrder: seq<string>, createOrder: seq<string>)
    ensures var (w', status) := Ensure(env, config, w, service, ready, searchOrder, createOrder);
            w.log <= w'.log && StopsThere(New(w, w'), status == Ok(None))
  {
    hide Keep, Search, Create, LabelSpec.CreateStatus, StopsThere;
    var (w1, kept) := Keep(env, config, w, service, ready);
    KeepEvents(env, config, w, service, ready);
    NothingListedStops(New(w, w1));
    var (w', status) := Ensure(env, config, w, service, ready, searchOrder, createOrder);
    ContinuesWithChoose(env, config, w, service, ready, searchOrder, createOrder);
    if kept == Ok(false) {
      SearchEvents(env, config, w1, service, searchOrder);
      var (w2, found) := Search(env, config, w1, service, searchOrder);
      NothingListedStops(New(w1, w2));
      NewChains(w, w1, w2);
      StopsInParts(New(w, w1), New(w1, w2), false);
      if found == Ok(None) {
        CreateStops(env, config, w2, service, createOrder);
        var (w3, created) := Create(env, config, w2, service, createOrder);
        NewChains(w, w2, w3);
        StopsInParts(New(w, w2), New(w2, w3), created == Ok(None));
        assert New(w, w') == New(w, w3);
        assert created == Ok(None) <==> status == Ok(None);
      } else {
        assert New(w, w') == New(w, w2);
        StopsAnyway(New(w, w2), status == Ok(None));
      }
    } else {
      StopsAnyway(New(w, w1), status == Ok(None));
    }
  }

  /******* Routing failures are no errors *******/

  lemma TryFamilySteady(env: Env, config: seq<Addr>, w: World, service: Service, family: Family, target: ServerID)
    requires Steady(env) && (family in service.families ==> GoodTable(w.remote.scp, family))
    ensures var (w', attempt) := TryFamily(env, config, w, service, family, target);
            && !attempt.Failed?
            && SameShape(w.remote.scp, w'.remote.scp) && SameIds(w, w')
            && (attempt.Tried? && attempt.addr.Some? ==> Routable(config, w.remote.scp, family))
  {
    hide RouteFirst, Routable, Confined;
    SameShapeAsItself(w.remote);
    if family in service.families {
      ListedAll(env, config, w, family);
      var (w1, addrs) := Failovers(env, config, w, family, None);
      RouteFirstSteady(env, config, w1, addrs.value, family, target);
      RouteFirstEvents(env, w1, addrs.value, target);
    }
  }

  lemma {:induction false} RouteFirstSteady(env: Env, config: seq<Addr>, w: World, addrs: seq<Addr>, family: Family, target: ServerID)
    requires Steady(env) && forall a :: a in addrs ==> a.family == family && a in config
    ensures var (w', routed) := RouteFirst(env, w, addrs, target);
            SameShape(w.remote.scp, w'.remote.scp) && (routed.Some? ==> Routable(config, w.remote.scp, family))
    decreases |addrs|
  {
    hide RouteUnderLock, SameShape, Routable, MovedBy;
    SameShapeAsItself(w.remote);
    if addrs != [] {
      assert addrs[0] in addrs;
      var (w1, answer) := Route(env, w, addrs[0], target);
      RouteConfined(env, config, w, addrs[0], target);
      ShapeKept(w.remote, w1.remote);
      if answer.Ok? {
        RoutedIsRoutable(env, config, w.remote, addrs[0], target);
      } else {
        RouteFirstSteady(env, config, w1, addrs[1..], family, target);
        var w2 := RouteFirst(env, w1, addrs[1..], target).0;
        ShapeChains(w.remote.scp, w1.remote.scp, w2.remote.scp);
        RoutableBack(config, w.remote.scp, w1.remote.scp, family);
      }
    }
  }

  lemma RoutableBack(config: seq<Addr>, scp: Scp, scp': Scp, family: Family)
    requires SameShape(scp, scp')
    ensures Routable(config, scp', family) <==> Routable(config, scp, family)
  {
    hide Routable;
    assert SameShape(scp', scp);
    if Routable(config, scp', family) {
      RoutableKept(config, scp', scp, family);
    }
    if Routable(config, scp, family) {
      RoutableKept(config, scp, scp', family);
    }
  }

  lemma RoutedIsRoutable(env: Env, config: seq<Addr>, r: Remote, addr: Addr, target: ServerID)
    requires Steady(env) && addr in config && RouteUnderLock(env, r, addr, target).1.Ok?
    ensures Routable(config, r.scp, addr.family)
  {
    RoutingLaws.RouteAnswers(env, r, addr, target);
    QuietTick(env, r);
    assert RoutingLaws.Finds(env, r, addr);
    var rec :| rec in Tick(env, r).scp.Records(addr.family) && RoutingLaws.Carries(rec, TextOf(addr));
    assert rec in r.scp.Records(addr.family) && RoutingLaws.Carries(rec, TextOf(addr));
  }

  /** Every wanted family has a routable configured address. */
  ghost predicate AllRoutable(config: seq<Addr>, scp: Scp, service: Service) {
    forall f :: f in service.families ==> Routable(config, scp, f)
  }

  ghost predicate GoodTables(scp: Scp, service: Service) {
    forall f :: f in service.families ==> GoodTable(scp, f)
  }

  lemma GoodTablesKept(config: seq<Addr>, scp: Scp, scp': Scp, service: Service)
    requires SameShape(scp, scp')
    ensures GoodTables(scp, service) ==> GoodTables(scp', service)
    ensures AllRoutable(config, scp', service) <==> AllRoutable(config, scp, service)
  {
    hide GoodTable, Routable, SameShape;
    forall f | f in service.families
      ensures GoodTable(scp, f) ==> GoodTable(scp', f)
      ensures Routable(config, scp', f) <==> Routable(config, scp, f)
    {
      if GoodTable(scp, f) {
        GoodTableKept(scp, scp', f);
      }
      RoutableBack(config, scp, scp', f);
    }
  }

  lemma RouteToNodeSteady(env: Env, config: seq<Addr>, w: World, service: Service, node: string, target: ServerID)
    requires Steady(env) && GoodTables(w.remote.scp, service)
    ensures var (w', visit) := RouteToNode(env, config, w, service, node, target);
            && (visit.GaveUp? || visit.Attempted?)
            && SameShape(w.remote.scp, w'.remote.scp) && SameIds(w, w')
            && (visit.Attempted? && Complete(service, visit.choice) ==>
                  visit.choice.node == node && service.families != [] && AllRoutable(config, w.remote.scp, service))
  {
    hide TryFamily, GoodTable, Routable, SameShape, SameIds;
    TryFamilySteady(env, config, w, service, IPv4, target);
    var (w1, v4) := TryFamily(env, config, w, service, IPv4, target);
    if v4.Tried? {
      GoodTablesKept(config, w.remote.scp, w1.remote.scp, service);
      TryFamilySteady(env, config, w1, service, IPv6, target);
      var (w2, v6) := TryFamily(env, config, w1, service, IPv6, target);
      ShapeChains(w.remote.scp, w1.remote.scp, w2.remote.scp);
      IdsChain(w, w1, w2);
      RoutableBack(config, w.remote.scp, w1.remote.scp, IPv6);
      UnwantedUntried(env, config, w, service, IPv4, target);
      UnwantedUntried(env, config, w1, service, IPv6, target);
      assert forall f :: f in service.families ==> f == IPv4 || f == IPv6;
    }
  }

  lemma UnwantedUntried(env: Env, config: seq<Addr>, w: World, service: Service, family: Family, target: ServerID)
    ensures family !in service.families ==> TryFamily(env, config, w, service, family, target).1 == Tried(None)
  {
  }

  lemma IdsChain(w: World, w1: World, w2: World)
    requires SameIds(w, w1) && SameIds(w1, w2)
    ensures SameIds(w, w2)
  {
    hide IdOf;
    assert forall n :: IdOf(w2, n) == IdOf(w1, n) && IdOf(w1, n) == IdOf(w, n);
  }

  /** A visit to a known node is no error, and it chooses the node only if the node runs and
      everything wanted is routable. */
  lemma VisitSteady(env: Env, config: seq<Addr>, w: World, service: Service, node: string)
    requires Steady(env) && HonestInfos(w.remote.scp) && Known(w, node) && GoodTables(w.remote.scp, service)
    ensures var (w', visit) := VisitNode(env, config, w, service, node);
            && !visit.Aborted?
            && SameShape(w.remote.scp, w'.remote.scp) && SameIds(w, w')
            && (visit.Attempted? && Complete(service, visit.choice) ==>
                  Runs(w, node) && visit.choice.node == node && service.families != [] && AllRoutable(config, w.remote.scp, service))
            && (!Runs(w, node) ==> visit.Skipped?)
  {
    hide Probe, RouteToNode, GoodTables, AllRoutable, IdOf, SameShape;
    ProbeTruth(env, w, node);
    var (w1, probe) := Probe(env, w, node);
    SameShapeAsItself(w.remote);
    assert SameIds(w, w1);
    var id := IdOf(w, node).value;
    assert probe.Ok? && probe.value == w.remote.scp.infos[id];
    if !Incomplete(probe.value) {
      assert w.remote.scp.infos[id].value.id == Some(id);
      if probe.value.value.live.value.state == Some(RUNNING) {
        RouteToNodeSteady(env, config, w1, service, node, id);
        IdsChain(w, w1, RouteToNode(env, config, w1, service, node, id).0);
      }
    }
  }

  /** The creation phase over known nodes is no error, and comes back with nothing if no node runs,
      no family is wanted, or some wanted family is not routable. */
  lemma {:induction false} CreateSteady(env: Env, config: seq<Addr>, w: World, service: Service, order: seq<string>)
    requires Steady(env) && HonestInfos(w.remote.scp) && GoodTables(w.remote.scp, service)
    requires forall n :: n in order ==> Known(w, n)
    ensures var created := Create(env, config, w, service, order).1;
            && created.Ok?
            && (created.value.Some? ==>
                  && service.families != [] && AllRoutable(config, w.remote.scp, service)
                  && created.value.value.node in order && Runs(w, created.value.value.node))
    decreases |order|
  {
    hide VisitNode, GoodTables, AllRoutable, Known, Runs, SameShape, SameIds, HonestInfos;
    if order != [] {
      assert order[0] in order;
      VisitSteady(env, config, w, service, order[0]);
      var w1 := VisitNode(env, config, w, service, order[0]).0;
      ShapeHonest(w.remote.scp, w1.remote.scp);
      GoodTablesKept(config, w.remote.scp, w1.remote.scp, service);
      forall n
        ensures (Known(w1, n) <==> Known(w, n)) && (Runs(w1, n) <==> Runs(w, n))
      {
        SameKnown(w, w1, n);
      }
      CreateSteady(env, config, w1, service, order[1..]);
    }
  }

  lemma {:induction false} SearchWithoutFamilies(env: Env, config: seq<Addr>, w: World, service: Service, order: seq<string>)
    requires service.families == []
    ensures Search(env, config, w, service, order) == (w, Ok(None))
    decreases |order|
  {
    if order != [] {
      SearchWithoutFamilies(env, config, w, service, order[1..]);
    }
  }

  /** Some ready node already hosts everything wanted, or some runs and everything wanted can be
      routed; and something is wanted. */
  ghost predicate Possible(config: seq<Addr>, w: World, service: Service, ready: set<string>) {
    && service.families != []
    && (|| (exists n :: n in ready && OffersAll(config, w, service, n))
        || ((exists n :: n in ready && Runs(w, n)) && AllRoutable(config, w.remote.scp, service)))
  }

  lemma SearchSteady(env: Env, config: seq<Addr>, w: World, service: Service, ready: set<string>, order: seq<string>)
    requires Steady(env) && IsOrder(order, ready) && AllListed(config, w, service, ready)
    ensures var (w', found) := Search(env, config, w, service, order);
            && SameView(w, w') && w'.remote.kube == w.remote.kube
            && found.Ok?
            && (found.value.Some? ==> found.value.value.node in ready && service.families != [])
            && (found.value.Some? <==> service.families != [] && exists n :: n in ready && OffersAll(config, w, service, n))
  {
    hide Search, OffersAll, HostsChoice, HostedNow, IdOf, SoundlyFound, Lacking, SameView;
    SearchTruth(env, config, w, service, order);
    SearchEvents(env, config, w, service, order);
    var found := Search(env, config, w, service, order).1;
    if service.families == [] {
      SearchWithoutFamilies(env, config, w, service, order);
    } else {
      OfferingIff(config, w, service, order);
    }
  }

  lemma {:induction false} OfferingIff(config: seq<Addr>, w: World, service: Service, order: seq<string>)
    ensures FirstOffering(config, w, service, order).Some? <==> exists n :: n in order && OffersAll(config, w, service, n)
    decreases |order|
  {
    hide OffersAll;
    if order != [] {
      OfferingIff(config, w, service, order[1..]);
      assert forall n :: n in order <==> n == order[0] || n in order[1..];
    }
  }

  /** However routing fares: over known nodes and tables that parse, a call is an error exactly for
      an unreadable status; otherwise it comes back with a status or with nothing, and with
      nothing whenever the balancer does not stand and none is possible. */
  lemma RoutingFailuresAreNoErrors(env: Env, config: seq<Addr>, w: World, key: Key, ready: set<string>,
                                   searchOrder: seq<string>, createOrder: seq<string>)
    requires Steady(env) && Readable(w, key, ready)
    requires IsOrder(searchOrder, ready) && IsOrder(createOrder, ready)
    ensures var service := w.remote.kube.services[key];
            var status := Ensure(env, config, w, service, ready, searchOrder, createOrder).1;
            && (status.Err? <==> UnreadableStatus(config, w, service, ready))
            && (status.Ok? && !Standing(config, w, service, ready) && !Possible(config, w, service, ready) ==> status == Ok(None))
  {
    hide Keep, Search, Create, Establish, GoodTable, GoodTables, AllRoutable, Serves, OffersAll, HostedNow, AllParse, Known, Runs, IdOf, SameView, HonestInfos, LabelLaws.Updated;
    var service := w.remote.kube.services[key];
    ReadableLists(config, w, key, ready);
    KeepTruth(env, config, w, key, ready);
    var (w1, kept) := Keep(env, config, w, service, ready);
    if kept == Ok(false) {
      SameScpOf(w, w1);
      ListedAlso(config, w, w1, service, ready);
      SearchSteady(env, config, w1, service, ready, searchOrder);
      var (w2, found) := Search(env, config, w1, service, searchOrder);
      SameAtAll(config, w, w1, service);
      if found.value.Some? {
        EstablishWorks(env, w2, service, found.value.value);
      } else {
        KnownAlso(w, w2, key, ready) by {
          SameScpOf(w1, w2);
          ViewsChain(w, w1, w2);
        }
        TablesAlso(w, w2, service);
        CreateSteady(env, config, w2, service, createOrder);
        var (w3, created) := Create(env, config, w2, service, createOrder);
        CreateEvents(env, config, w2, service, createOrder);
        if created.value.Some? {
          EstablishWorks(env, w3, service, created.value.value);
        }
      }
    }
  }

  lemma SameScpOf(w: World, w': World)
    requires SameView(w, w')
    ensures w'.remote.scp == w.remote.scp && (HonestInfos(w'.remote.scp) <==> HonestInfos(w.remote.scp))
  {
  }

  lemma ViewsChain(w: World, w1: World, w2: World)
    requires SameView(w, w1) && SameView(w1, w2)
    ensures SameView(w, w2)
  {
    hide IdOf;
    assert forall n :: IdOf(w2, n) == IdOf(w1, n) && IdOf(w1, n) == IdOf(w, n);
  }

  lemma ListedAlso(config: seq<Addr>, w: World, w': World, service: Service, ready: set<string>)
    requires SameView(w, w') && AllListed(config, w, service, ready)
    ensures AllListed(config, w', service, ready)
  {
    hide HostedNow, SameView;
    forall n | n in ready
      ensures forall f :: HostedNow(config, w', n, f) == HostedNow(config, w, n, f)
    {
      SameHosted(config, w, w', n);
    }
  }

  lemma KnownAlso(w: World, w': World, key: Key, ready: set<string>)
    requires SameView(w, w') && Readable(w, key, ready)
    ensures HonestInfos(w'.remote.scp) && forall n :: n in ready ==> Known(w', n)
    ensures forall n :: Runs(w', n) <==> Runs(w, n)
    ensures w'.remote.scp == w.remote.scp
  {
    hide GoodTable, IdOf;
    forall n
      ensures (Known(w', n) <==> Known(w, n)) && (Runs(w', n) <==> Runs(w, n))
    {
      assert IdOf(w', n) == IdOf(w, n);
    }
  }

  lemma TablesAlso(w: World, w': World, service: Service)
    requires w'.remote.scp == w.remote.scp && forall f :: f in service.families ==> GoodTable(w.remote.scp, f)
    ensures GoodTables(w'.remote.scp, service)
  {
  }

  lemma EstablishWorks(env: Env, w: World, service: Service, choice: Choice)
    requires AllAnswered(env) && service.Key() in w.remote.kube.services && choice.node in w.remote.kube.nodes
    ensures Establish(env, w, service, choice).1 == Ok(Some(choice.Ingress()))
  {
    hide LabelSpec.CreateStatus;
    CreateStatusWorks(env, w.remote, service, choice.node);
  }

  /** When a call comes back with nothing: in a calm environment, over known nodes and tables that
      parse and unless the stored status is unreadable, exactly if the balancer does not stand
      and none is possible. */
  lemma GivesUpIff(env: Env, config: seq<Addr>, w: World, key: Key, ready: set<string>,
                   searchOrder: seq<string>, createOrder: seq<string>)
    requires Calm(env) && Readable(w, key, ready) && !UnreadableStatus(config, w, w.remote.kube.services[key], ready)
    requires IsOrder(searchOrder, ready) && IsOrder(createOrder, ready)
    ensures var service := w.remote.kube.services[key];
            Ensure(env, config, w, service, ready, searchOrder, createOrder).1 == Ok(None) <==>
              !Standing(config, w, service, ready) && !Possible(config, w, service, ready)
  {
    hide Keep, Search, Create, Establish, GoodTable, Routable, Serves, OffersAll, HostedNow, AllParse, Known, Runs, IdOf, SameView, HonestInfos, UnreadableStatus, LabelLaws.Updated, HostsChoice, SameShape, SameIds;
    var service := w.remote.kube.services[key];
    RoutingFailuresAreNoErrors(env, config, w, key, ready, searchOrder, createOrder);
    ReadableLists(config, w, key, ready);
    KeepTruth(env, config, w, key, ready);
    var (w1, kept) := Keep(env, config, w, service, ready);
    if kept == Ok(false) && Possible(config, w, service, ready) {
      SameScpOf(w, w1);
      ListedAlso(config, w, w1, service, ready);
      SameAtAll(config, w, w1, service);
      SearchSteady(env, config, w1, service, ready, searchOrder);
      var (w2, found) := Search(env, config, w1, service, searchOrder);
      if found.value.Some? {
        EstablishWorks(env, w2, service, found.value.value);
      } else {
        KnownAlso(w, w2, key, ready) by {
          ViewsChain(w, w1, w2);
        }
        CreateWorks(env, config, w2, service, createOrder);
        var (w3, created) := Create(env, config, w2, service, createOrder);
        CreateEvents(env, config, w2, service, createOrder);
        EstablishWorks(env, w3, service, created.value.value);
      }
    }
  }
}
