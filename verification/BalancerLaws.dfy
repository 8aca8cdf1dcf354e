/** What one EnsureLoadBalancer call guarantees, for every environment and every iteration order. */
module BalancerLaws {
  import opened Basics
  import opened Stores
  import opened CloudSpec
  import opened BalancerSpec
  import opened EventLaws
  import opened WorldLaws
  import opened SearchLaws
  import opened CreationLaws
  import LabelSpec

  /******* Labelling does not touch SCP *******/

  ghost predicate OnlyLabels(env: Env, r: Remote, r': Remote) {
    && r'.issued == r.issued
    && (Quiet(env) ==> r'.scp == r.scp)
  }

  lemma CallOnlyLabels(env: Env, r: Remote)
    ensures OnlyLabels(env, r, Tick(env, r))
  {
    if Quiet(env) {
      QuietTick(env, r);
    }
  }

  lemma {:induction false} ResetEachOnlyLabels(env: Env, r: Remote, nodes: seq<string>, labelName: string, exclude: Option<string>)
    ensures OnlyLabels(env, r, LabelSpec.ResetEach(env, r, nodes, labelName, exclude).0)
    decreases |nodes|
  {
    if nodes != [] {
      CallOnlyLabels(env, r);
      ResetEachOnlyLabels(env, if Some(nodes[0]) == exclude then r else LabelNode(env, r, nodes[0], labelName, "false").0,
                          nodes[1..], labelName, exclude);
    }
  }

  lemma ResetOnlyLabels(env: Env, r: Remote, labelName: string, exclude: Option<string>)
    ensures OnlyLabels(env, r, LabelSpec.Reset(env, r, labelName, exclude).0)
  {
    CallOnlyLabels(env, r);
    var (r1, marked) := ListMarkedNodes(env, r, labelName);
    if marked.Ok? {
      ResetEachOnlyLabels(env, r1, marked.value, labelName, exclude);
    }
  }

  lemma UpdateOnlyLabels(env: Env, r: Remote, service: Service, node: string)
    ensures OnlyLabels(env, r, LabelSpec.Update(env, r, service, node).0)
  {
    hide LabelSpec.Reset;
    ResetOnlyLabels(env, r, LabelName(service.name), Some(node));
    var r1 := LabelSpec.Reset(env, r, LabelName(service.name), Some(node)).0;
    CallOnlyLabels(env, r1);
    var r2 := PatchService(env, r1, service, LabelSpec.Labelled(service, node)).0;
    CallOnlyLabels(env, r2);
  }

  lemma RemoveOnlyLabels(env: Env, r: Remote, service: Service, clearStatus: bool)
    ensures OnlyLabels(env, r, LabelSpec.Remove(env, r, service, clearStatus).0)
  {
    hide LabelSpec.Reset;
    CallOnlyLabels(env, r);
    ResetOnlyLabels(env, PatchService(env, r, service, LabelSpec.Unlabelled(service, clearStatus)).0, LabelName(service.name), None);
  }

  lemma CreateStatusOnlyLabels(env: Env, r: Remote, service: Service, node: string)
    ensures OnlyLabels(env, r, LabelSpec.CreateStatus(env, r, service, node).0)
  {
    hide LabelSpec.Update, LabelSpec.Remove;
    UpdateOnlyLabels(env, r, service, node);
    RemoveOnlyLabels(env, r, service, false);
    UpdateOnlyLabels(env, LabelSpec.Remove(env, r, service, false).0, service, node);
  }

  /******* The phases of one call *******/

  lemma KeepEvents(env: Env, config: seq<Addr>, w: World, service: Service, ready: set<string>)
    ensures var (w', kept) := Keep(env, config, w, service, ready);
            && CacheGrows(w, w') && w.log <= w'.log && OnlySearched(New(w, w'))
            && w'.remote.issued == w.remote.issued
            && (Quiet(env) ==> SameView(w, w'))
            && (kept == Ok(false) ==> w'.remote.kube == w.remote.kube)
  {
    hide Exists, LabelSpec.Update;
    assert New(w, w) == [];
    if service.nodeLabel.Some? {
      ExistsReads(env, config, w, service);
      UpdateOnlyLabels(env, Exists(env, config, w, service).0.remote, service, service.nodeLabel.value);
    }
  }

  /** Searching and then, if need be, routing. */
  lemma ChooseEvents(env: Env, config: seq<Addr>, w: World, service: Service, searchOrder: seq<string>, createOrder: seq<string>)
    ensures var (w', chosen) := Choose(env, config, w, service, searchOrder, createOrder);
            && Advanced(w, w') && WithinBounds(w, w', service, |createOrder|)
            && (chosen.Ok? && chosen.value.Some? ==>
                  SoundChoice(config, w, w', service, chosen.value.value, searchOrder, createOrder))
            && (chosen == Ok(None) ==> HopelessFor(w, w', service, createOrder))
            && (Quiet(env) && w'.remote.issued != w.remote.issued ==>
                  service.families != [] && forall n :: n in searchOrder ==> Lacking(config, w, service, n))
  {
    hide Search, Create, SoundlyFound, SoundlyRouted, Blocked, WithinBounds, Lacking;
    SearchEvents(env, config, w, service, searchOrder);
    var (w1, found) := Search(env, config, w, service, searchOrder);
    SearchedCounts(w, w1, service, |createOrder|);
    if found.Ok? && found.value.Some? {
      WantsSomething(service, found.value.value, New(w, w1), w1.cache, config);
    } else if found.Ok? {
      CreateEvents(env, config, w1, service, createOrder);
      var (w2, created) := Create(env, config, w1, service, createOrder);
      NewChains(w, w1, w2);
      BoundsAfterSearch(w, w1, w2, service, |createOrder|);
      if created.Ok? && created.value.Some? {
        if service.families == [] {
          CreateWithoutFamilies(env, config, w1, service, createOrder);
        } else {
          RoutedLater(config, service, created.value.value, New(w, w1), New(w1, w2));
        }
      } else if created == Ok(None) {
        HopelessLater(w, w1, w2, service, createOrder);
      }
      if service.families == [] {
        CreateWithoutFamilies(env, config, w1, service, createOrder);
      }
    }
  }

  /** A choice found on its node's server without any routing, or routed there. */
  ghost predicate SoundChoice(config: seq<Addr>, w: World, w': World, service: Service, choice: Choice, searchOrder: seq<string>, createOrder: seq<string>)
    requires w.log <= w'.log
  {
    && service.families != []
    && Complete(service, choice)
    && (|| (choice.node in searchOrder && w'.remote.issued == w.remote.issued &&
            SoundlyFound(config, service, choice, New(w, w'), w'.cache))
        || (choice.node in createOrder && SoundlyRouted(config, service, choice, New(w, w'))))
  }

  /** Why a call comes back with nothing. */
  ghost predicate HopelessFor(w: World, w': World, service: Service, createOrder: seq<string>)
    requires w.log <= w'.log
  {
    || service.families == []
    || NothingListed(New(w, w'), service)
    || forall n :: n in createOrder ==> Blocked(New(w, w'), n, service)
  }

  lemma HopelessLater(w: World, w1: World, w2: World, service: Service, createOrder: seq<string>)
    requires w.log <= w1.log <= w2.log && HopelessFor(w1, w2, service, createOrder)
    ensures w.log <= w2.log && HopelessFor(w, w2, service, createOrder)
  {
    hide Blocked;
    NewChains(w, w1, w2);
    if forall n :: n in createOrder ==> Blocked(New(w1, w2), n, service) {
      forall n | n in createOrder
        ensures Blocked(New(w, w2), n, service)
      {
        BlockedWithin(New(w, w1), New(w1, w2), [], n, service);
        assert New(w, w1) + New(w1, w2) + [] == New(w, w2);
      }
    }
  }

  lemma {:induction false} SearchedCountsNothing(events: seq<Event>, family: Family)
    requires OnlySearched(events)
    ensures Candidates(events) == 0 && Successes(events, family) == 0
  {
    if events != [] {
      assert events[0] in events;
      SearchedCountsNothing(events[1..], family);
    }
  }

  lemma SearchedCounts(w: World, w1: World, service: Service, rounds: nat)
    requires w.log <= w1.log && OnlySearched(New(w, w1)) && w1.remote.issued == w.remote.issued
    ensures WithinBounds(w, w1, service, rounds) && WithinBounds(w, w1, service, 0)
  {
    SearchedCountsNothing(New(w, w1), IPv4);
    forall f {
      SearchedCountsNothing(New(w, w1), f);
    }
  }

  lemma BoundsAfterSearch(w: World, w1: World, w2: World, service: Service, rounds: nat)
    requires w.log <= w1.log <= w2.log && OnlySearched(New(w, w1)) && w1.remote.issued == w.remote.issued
    requires WithinBounds(w1, w2, service, rounds)
    ensures w.log <= w2.log && WithinBounds(w, w2, service, rounds)
  {
    SearchedCounts(w, w1, service, 0);
    BoundsAdd(w, w1, w2, service, 0, rounds);
  }

  lemma WantsSomething(service: Service, choice: Choice, events: seq<Event>, cache: map<string, ServerID>, config: seq<Addr>)
    requires Complete(service, choice) && SoundlyFound(config, service, choice, events, cache)
    ensures service.families != []
  {
    assert choice.Of(IPv4) == choice.v4 && choice.Of(IPv6) == choice.v6;
  }

  /** With no family wanted, nothing is routed and nothing is created. */
  lemma {:induction false} CreateWithoutFamilies(env: Env, config: seq<Addr>, w: World, service: Service, order: seq<string>)
    requires service.families == []
    ensures var (w', created) := Create(env, config, w, service, order);
            w'.remote.issued == w.remote.issued && !(created.Ok? && created.value.Some?)
    decreases |order|
  {
    hide Probe;
    if order != [] {
      ProbeReads(env, w, order[0]);
      var (w1, visit) := VisitNode(env, config, w, service, order[0]);
      CreateWithoutFamilies(env, config, w1, service, order[1..]);
    }
  }

  /******* The guarantees of a call *******/

  lemma {:induction false} OrderSize(order: seq<string>, keys: set<string>)
    requires IsOrder(order, keys)
    ensures |order| == |keys|
    decreases |order|
  {
    if order == [] {
      assert keys == {};
    } else {
      var rest := keys - {order[0]};
      assert forall n :: n in order[1..] <==> n in rest by {
        forall n | n in order[1..]
          ensures n in rest
        {
          var i :| 0 <= i < |order[1..]| && order[1..][i] == n;
          assert order[i + 1] != order[0];
          assert n in order;
        }
      }
      OrderSize(order[1..], rest);
    }
  }

  lemma ContinuesWithChoose(env: Env, config: seq<Addr>, w: World, service: Service, ready: set<string>,
                            searchOrder: seq<string>, createOrder: seq<string>)
    ensures var (w', status) := Ensure(env, config, w, service, ready, searchOrder, createOrder);
            var (w1, kept) := Keep(env, config, w, service, ready);
            var (w2, chosen) := Choose(env, config, w1, service, searchOrder, createOrder);
            && (kept != Ok(false) ==> w' == w1 && (status.Ok? ==> kept == Ok(true) && status.value == Some(service.ingress)))
            && (kept == Ok(false) ==> w'.log == w2.log && w'.cache == w2.cache && w'.remote.issued == w2.remote.issued)
            && (kept == Ok(false) && status.Ok? ==>
                  && chosen.Ok?
                  && status.value == if chosen.value.None? then None else Some(chosen.value.value.Ingress()))
  {
    hide Keep, Choose, LabelSpec.CreateStatus;
    var (w1, kept) := Keep(env, config, w, service, ready);
    var (w2, chosen) := Choose(env, config, w1, service, searchOrder, createOrder);
    if chosen.Ok? && chosen.value.Some? {
      CreateStatusOnlyLabels(env, w2.remote, service, chosen.value.value.node);
    }
  }

  /** The canonical text of the IPv4 address if IPv4 is wanted, then that of the IPv6 address if IPv6
      is wanted, and nothing else. */
  ghost predicate IsStatusOf(service: Service, choice: Choice, status: seq<Text>) {
    && (IPv4 in service.families ==> choice.v4.Some?) && (IPv6 in service.families ==> choice.v6.Some?)
    && status == (if IPv4 in service.families then [Canonical(choice.v4.value)] else []) +
                 (if IPv6 in service.families then [Canonical(choice.v6.value)] else [])
  }

  lemma IngressText(choice: Choice)
    ensures choice.Ingress() == (if choice.v4.Some? then [Canonical(choice.v4.value)] else []) +
                                (if choice.v6.Some? then [Canonical(choice.v6.value)] else [])
  {
  }

  /** Soundness of a new balancer: its status has exactly one address per wanted family, IPv4
      first, and no others; all of them are configured; and either each was listed first on
      the chosen ready node's server in a call that routed nothing, or the chosen ready node
      was seen running and the last attempt at each address in this call, whatever earlier
      rounds did with it, routed it to that node's server. */
  lemma NewBalancerIsSound(env: Env, config: seq<Addr>, w: World, service: Service, ready: set<string>,
                           searchOrder: seq<string>, createOrder: seq<string>)
    requires IsOrder(searchOrder, ready) && IsOrder(createOrder, ready)
    requires Keep(env, config, w, service, ready).1 == Ok(false)
    requires var status := Ensure(env, config, w, service, ready, searchOrder, createOrder).1; status.Ok? && status.value.Some?
    ensures var (w', status) := Ensure(env, config, w, service, ready, searchOrder, createOrder);
            && w.log <= w'.log
            && service.families != []
            && exists choice: Choice ::
                 && choice.node in ready
                 && IsStatusOf(service, choice, status.value.value)
                 && (choice.v4.Some? <==> IPv4 in service.families) && (choice.v6.Some? <==> IPv6 in service.families)
                 && (|| (w'.remote.issued == w.remote.issued && SoundlyFound(config, service, choice, New(w, w'), w'.cache))
                     || SoundlyRouted(config, service, choice, New(w, w')))
  {
    hide Keep, Choose, Ensure, SoundlyFound, SoundlyRouted;
    var (w1, kept) := Keep(env, config, w, service, ready);
    var (w2, chosen) := Choose(env, config, w1, service, searchOrder, createOrder);
    var (w', status) := Ensure(env, config, w, service, ready, searchOrder, createOrder);
    KeepEvents(env, config, w, service, ready);
    ChooseEvents(env, config, w1, service, searchOrder, createOrder);
    ContinuesWithChoose(env, config, w, service, ready, searchOrder, createOrder);
    NewChains(w, w1, w2);
    assert New(w, w') == New(w, w2);
    var choice := chosen.value.value;
    IngressText(choice);
    ExactFamilies(config, service, choice, New(w1, w2), w2.cache);
    if SoundlyFound(config, service, choice, New(w1, w2), w2.cache) {
      FoundLater(config, service, choice, New(w, w1), New(w1, w2), w2.cache);
    }
    if SoundlyRouted(config, service, choice, New(w1, w2)) {
      RoutedLater(config, service, choice, New(w, w1), New(w1, w2));
    }
  }

  lemma ExactFamilies(config: seq<Addr>, service: Service, choice: Choice, events: seq<Event>, cache: map<string, ServerID>)
    requires SoundlyFound(config, service, choice, events, cache) || SoundlyRouted(config, service, choice, events)
    ensures (choice.v4.Some? <==> IPv4 in service.families) && (choice.v6.Some? <==> IPv6 in service.families)
  {
    assert choice.Of(IPv4) == choice.v4 && choice.Of(IPv6) == choice.v6;
    if !SoundlyFound(config, service, choice, events, cache) {
      var i, info, target :| RoutedThere(config, service, choice, events, i, info, target);
      assert RoutedThere(config, service, choice, events, i, info, target);
    }
  }

  /** Completeness of giving up: a call comes back with nothing and no error only if no family
      is wanted, some wanted family had no configured address listed anywhere, or every ready
      node was blocked: incomplete information, not running, or every candidate of some
      wanted family failed to route to it. */
  lemma GivesUpOnlyIfHopeless(env: Env, config: seq<Addr>, w: World, service: Service, ready: set<string>,
                              searchOrder: seq<string>, createOrder: seq<string>)
    requires IsOrder(createOrder, ready)
    requires Ensure(env, config, w, service, ready, searchOrder, createOrder).1 == Ok(None)
    ensures var w' := Ensure(env, config, w, service, ready, searchOrder, createOrder).0;
            && w.log <= w'.log
            && (|| service.families == []
                || NothingListed(New(w, w'), service)
                || forall n :: n in ready ==> Blocked(New(w, w'), n, service))
  {
    hide Keep, Choose, Ensure, Blocked, NothingListed;
    var (w1, kept) := Keep(env, config, w, service, ready);
    var (w2, chosen) := Choose(env, config, w1, service, searchOrder, createOrder);
    KeepEvents(env, config, w, service, ready);
    ChooseEvents(env, config, w1, service, searchOrder, createOrder);
    ContinuesWithChoose(env, config, w, service, ready, searchOrder, createOrder);
    HopelessLater(w, w1, w2, service, createOrder);
  }

  /** Routing work bound: a call sends at most as many PATCHes as candidates were listed for
      routing over the nodes it visited, and at most one address per wanted family is routed
      per ready node. */
  lemma RoutingWorkBound(env: Env, config: seq<Addr>, w: World, service: Service, ready: set<string>,
                         searchOrder: seq<string>, createOrder: seq<string>)
    requires IsOrder(createOrder, ready)
    ensures var w' := Ensure(env, config, w, service, ready, searchOrder, createOrder).0;
            && w.log <= w'.log
            && |w'.remote.issued| <= |w.remote.issued| + Candidates(New(w, w'))
            && forall f :: Successes(New(w, w'), f) <= (if f in service.families then |ready| else 0)
  {
    hide Keep, Choose, Ensure;
    var (w1, kept) := Keep(env, config, w, service, ready);
    var (w2, chosen) := Choose(env, config, w1, service, searchOrder, createOrder);
    OrderSize(createOrder, ready);
    KeepEvents(env, config, w, service, ready);
    ChooseEvents(env, config, w1, service, searchOrder, createOrder);
    ContinuesWithChoose(env, config, w, service, ready, searchOrder, createOrder);
    SearchedCounts(w, w1, service, |ready|);
    BoundsAfterSearch(w, w1, w2, service, |ready|);
  }

  /** No needless failover: in a quiet environment, the call sends a routing PATCH
      only if, when the call began, every ready node lacked a configured address of some wanted
      family; whatever the orders, and whichever calls fail. */
  lemma NoNeedlessFailover(env: Env, config: seq<Addr>, w: World, service: Service, ready: set<string>,
                           searchOrder: seq<string>, createOrder: seq<string>)
    requires Quiet(env) && IsOrder(searchOrder, ready)
    requires Ensure(env, config, w, service, ready, searchOrder, createOrder).0.remote.issued != w.remote.issued
    ensures forall n :: n in ready ==> Lacking(config, w, service, n)
  {
    hide Keep, Choose, Ensure, Lacking;
    var (w1, kept) := Keep(env, config, w, service, ready);
    KeepEvents(env, config, w, service, ready);
    ChooseEvents(env, config, w1, service, searchOrder, createOrder);
    ContinuesWithChoose(env, config, w, service, ready, searchOrder, createOrder);
    SameLacking(config, w, w1, service);
  }
}
