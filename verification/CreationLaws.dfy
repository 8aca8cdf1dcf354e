/** The phase that routes addresses: what each step observes, sends and leaves behind. */
module CreationLaws {
  import opened Basics
  import opened Stores
  import opened CloudSpec
  import opened BalancerSpec
  import opened EventLaws
  import opened WorldLaws
  import RoutingLaws
  import SelectLaws

  lemma RouteEvents(env: Env, w: World, addr: Addr, target: ServerID)
    ensures var (w', answer) := Route(env, w, addr, target);
            && w'.log == w.log + [Routed(addr, target, answer.Ok?)]
            && w'.cache == w.cache && w'.remote.kube == w.remote.kube
            && w.remote.issued <= w'.remote.issued && |w'.remote.issued| <= |w.remote.issued| + 1
  {
    RoutingLaws.RouteSendsOnePatch(env, w.remote, addr, target);
  }

  /** The events of trying a list of candidates: failures, and then perhaps one success. */
  ghost function Tries(addrs: seq<Addr>, target: ServerID, routed: Option<Addr>, k: nat): seq<Event>
    requires k <= |addrs|
  {
    Failures(addrs[..k], target) + (if routed.Some? then [Routed(routed.value, target, true)] else [])
  }

  ghost predicate TriedUpTo(w: World, w': World, addrs: seq<Addr>, target: ServerID, routed: Option<Addr>, k: nat) {
    && k <= |addrs|
    && w'.log == w.log + Tries(addrs, target, routed, k)
    && (if routed.Some? then k < |addrs| && routed.value == addrs[k] else k == |addrs|)
  }

  /** How many candidates fail before one routes, or the list ends. */
  ghost function FailedBefore(env: Env, w: World, addrs: seq<Addr>, target: ServerID): (k: nat)
    ensures k <= |addrs|
    decreases |addrs|
  {
    if addrs == [] then 0
    else
      var (w1, answer) := Route(env, w, addrs[0], target);
      if answer.Ok? then 0 else 1 + FailedBefore(env, w1, addrs[1..], target)
  }

  lemma {:induction false} RouteFirstEvents(env: Env, w: World, addrs: seq<Addr>, target: ServerID)
    ensures var (w', routed) := RouteFirst(env, w, addrs, target);
            && TriedUpTo(w, w', addrs, target, routed, FailedBefore(env, w, addrs, target))
            && w'.cache == w.cache && w'.remote.kube == w.remote.kube
            && w.remote.issued <= w'.remote.issued && |w'.remote.issued| <= |w.remote.issued| + |addrs|
    decreases |addrs|
  {
    if addrs != [] {
      var routed := RouteFirst(env, w, addrs, target).1;
      RouteEvents(env, w, addrs[0], target);
      var (w1, answer) := Route(env, w, addrs[0], target);
      if answer.Ok? {
        assert Tries(addrs, target, routed, 0) == [Routed(addrs[0], target, true)];
      } else {
        RouteFirstEvents(env, w1, addrs[1..], target);
        var k := FailedBefore(env, w1, addrs[1..], target);
        assert Failures(addrs[..k + 1], target) == [Routed(addrs[0], target, false)] + Failures(addrs[1..][..k], target);
        assert Tries(addrs, target, routed, k + 1) == [Routed(addrs[0], target, false)] + Tries(addrs[1..], target, routed, k);
      }
    }
  }

  /** What the attempt at one family shows: the listing, and then the tries. */
  ghost predicate AttemptEvents(config: seq<Addr>, service: Service, family: Family, target: ServerID, attempt: Attempt, events: seq<Event>) {
    match attempt
    case Failed(_) => events == []
    case NoneListed => family in service.families && events == [Listed(family, None, [])]
    case Tried(routed) =>
      if family !in service.families then routed.None? && events == []
      else exists addrs: seq<Addr>, k: nat :: ListedAndTried(config, family, target, routed, events, addrs, k)
  }

  ghost predicate ListedAndTried(config: seq<Addr>, family: Family, target: ServerID, routed: Option<Addr>,
                                 events: seq<Event>, addrs: seq<Addr>, k: nat)
  {
    && addrs != [] && k <= |addrs|
    && (forall a :: a in addrs ==> a.family == family && a in config)
    && events == [Listed(family, None, addrs)] + Tries(addrs, target, routed, k)
    && (if routed.Some? then k < |addrs| && routed.value == addrs[k] else k == |addrs|)
  }

  /** Nothing is probed, and addresses of this family only are routed, to this target only. */
  ghost predicate OnlyRoutes(events: seq<Event>, family: Family, target: ServerID) {
    forall e :: e in events ==> !e.Probed? && (e.Routed? ==> e.addr.family == family && e.target == target)
  }

  /** Time has passed and PATCHes were sent; Kubernetes is untouched and IDs are kept. */
  ghost predicate Advanced(w: World, w': World) {
    && w.log <= w'.log && w.remote.issued <= w'.remote.issued
    && w'.remote.kube == w.remote.kube && CacheGrows(w, w')
  }

  lemma TryFamilyEvents(env: Env, config: seq<Addr>, w: World, service: Service, family: Family, target: ServerID)
    ensures var (w', attempt) := TryFamily(env, config, w, service, family, target);
            && Advanced(w, w')
            && AttemptEvents(config, service, family, target, attempt, New(w, w'))
            && |w'.remote.issued| <= |w.remote.issued| + Candidates(New(w, w'))
            && Successes(New(w, w'), family) <= (if family in service.families then 1 else 0)
            && OnlyRoutes(New(w, w'), family, target)
  {
    hide Failovers, RouteFirst, ListedAndTried;
    if family in service.families {
      var (w1, addrs) := Failovers(env, config, w, family, None);
      FailoversReads(env, config, w, family, None);
      SelectLaws.FailoversOfFamily(env, config, w, family, None);
      if addrs.Ok? {
        var listed := [Listed(family, None, addrs.value)];
        assert New(w, w1) == listed;
        assert listed[1..] == [];
        if addrs.value != [] {
          TryListed(env, config, w, w1, family, addrs.value, target);
        }
      }
    }
  }

  lemma TryListed(env: Env, config: seq<Addr>, w: World, w1: World, family: Family, addrs: seq<Addr>, target: ServerID)
    requires addrs != [] && forall a :: a in addrs ==> a.family == family && a in config
    requires w1.log == w.log + [Listed(family, None, addrs)]
    ensures var (w', routed) := RouteFirst(env, w1, addrs, target);
            && w.log <= w'.log && w'.remote.kube == w1.remote.kube && w'.cache == w1.cache
            && (exists k: nat :: ListedAndTried(config, family, target, routed, New(w, w'), addrs, k))
            && w1.remote.issued <= w'.remote.issued
            && |w'.remote.issued| <= |w1.remote.issued| + Candidates(New(w, w'))
            && Successes(New(w, w'), family) <= 1
            && OnlyRoutes(New(w, w'), family, target)
  {
    hide RouteFirst, Candidates, Successes;
    RouteFirstEvents(env, w1, addrs, target);
    var (w', routed) := RouteFirst(env, w1, addrs, target);
    var k := FailedBefore(env, w1, addrs, target);
    var listed := [Listed(family, None, addrs)];
    var tries := Tries(addrs, target, routed, k);
    assert New(w, w') == listed + tries;
    assert ListedAndTried(config, family, target, routed, New(w, w'), addrs, k);
    CountAttempt(addrs, target, routed, k, family);
  }

  lemma CountAttempt(addrs: seq<Addr>, target: ServerID, routed: Option<Addr>, k: nat, family: Family)
    requires k <= |addrs|
    ensures var events := [Listed(family, None, addrs)] + Tries(addrs, target, routed, k);
            Candidates(events) == |addrs| && Successes(events, family) <= 1
  {
    var listed := [Listed(family, None, addrs)];
    assert listed[1..] == [];
    CountTries(addrs, target, routed, k, family);
    CountsOfParts(listed, Tries(addrs, target, routed, k), family);
  }

  lemma CountTries(addrs: seq<Addr>, target: ServerID, routed: Option<Addr>, k: nat, family: Family)
    requires k <= |addrs|
    ensures Candidates(Tries(addrs, target, routed, k)) == 0
    ensures Successes(Tries(addrs, target, routed, k), family) <= 1
  {
    FailuresCount(addrs[..k], target, family);
    CountsOfParts(Failures(addrs[..k], target), if routed.Some? then [Routed(routed.value, target, true)] else [], family);
  }

  /******* One visited node *******/

  /** At position `j`, a family's candidates are listed, and then every one of them fails to
      route to the target. */
  ghost predicate FailedAt(events: seq<Event>, j: int, family: Family, addrs: seq<Addr>, target: ServerID) {
    && addrs != [] && 0 <= j && j + |addrs| < |events|
    && events[j] == Listed(family, None, addrs)
    && forall k :: 0 <= k < |addrs| ==> events[j + 1 + k] == Routed(addrs[k], target, false)
  }

  ghost predicate FamilyFailed(events: seq<Event>, family: Family, target: ServerID) {
    exists j, addrs :: FailedAt(events, j, family, addrs, target)
  }

  lemma FailedWithin(before: seq<Event>, events: seq<Event>, after: seq<Event>, family: Family, target: ServerID)
    requires FamilyFailed(events, family, target)
    ensures FamilyFailed(before + events + after, family, target)
  {
    var j, addrs :| FailedAt(events, j, family, addrs, target);
    assert FailedAt(events, j, family, addrs, target);
    var all := before + events + after;
    forall k | 0 <= k < |addrs|
      ensures all[|before| + j + 1 + k] == Routed(addrs[k], target, false)
    {
      assert all[|before| + (j + 1 + k)] == events[j + 1 + k];
    }
    assert FailedAt(all, |before| + j, family, addrs, target);
  }

  /** What an attempt at a wanted family shows about its outcome. */
  lemma AttemptShows(config: seq<Addr>, service: Service, family: Family, target: ServerID, routed: Option<Addr>, events: seq<Event>)
    requires family in service.families
    requires AttemptEvents(config, service, family, target, Tried(routed), events)
    ensures routed.None? ==> FamilyFailed(events, family, target)
    ensures routed.Some? ==> routed.value.family == family && routed.value in config &&
                             LastRoute(events, routed.value) == Some((target, true))
  {
    var addrs: seq<Addr>, k: nat :| ListedAndTried(config, family, target, routed, events, addrs, k);
    assert ListedAndTried(config, family, target, routed, events, addrs, k);
    if routed.None? {
      assert addrs[..k] == addrs;
      assert Tries(addrs, target, routed, k) == Failures(addrs, target);
      assert FailedAt(events, 0, family, addrs, target);
    }
  }

  /** What is known of the wanted families after an attempt at routing them to a target. */
  ghost predicate FamilyOutcome(config: seq<Addr>, service: Service, family: Family, target: ServerID, choice: Choice, events: seq<Event>) {
    if family !in service.families then choice.Of(family).None?
    else if choice.Of(family).None? then FamilyFailed(events, family, target)
    else
      var a := choice.Of(family).value;
      a.family == family && a in config && LastRoute(events, a) == Some((target, true))
  }

  ghost predicate NothingListed(events: seq<Event>, service: Service) {
    exists f :: f in service.families && Listed(f, None, []) in events
  }

  /** Never more PATCHes than candidates, nor more than one success per wanted family. */
  ghost predicate WithinBounds(w: World, w': World, service: Service, rounds: nat)
    requires w.log <= w'.log
  {
    && |w'.remote.issued| <= |w.remote.issued| + Candidates(New(w, w'))
    && forall f :: Successes(New(w, w'), f) <= (if f in service.families then rounds else 0)
  }

  lemma OtherFamilyCounts(events: seq<Event>, family: Family)
    requires forall e :: e in events && e.Routed? ==> e.addr.family != family
    ensures Successes(events, family) == 0
  {
    if events != [] {
      assert events[0] in events;
      OtherFamilyCounts(events[1..], family);
    }
  }

  lemma BoundsAdd(w: World, w1: World, w2: World, service: Service, these: nat, those: nat)
    requires w.log <= w1.log <= w2.log
    requires WithinBounds(w, w1, service, these) && WithinBounds(w1, w2, service, those)
    ensures w.log <= w2.log && WithinBounds(w, w2, service, these + those)
  {
    NewChains(w, w1, w2);
    forall f
      ensures Successes(New(w, w2), f) <= (if f in service.families then these + those else 0)
      ensures Candidates(New(w, w2)) == Candidates(New(w, w1)) + Candidates(New(w1, w2))
    {
      CountsOfParts(New(w, w1), New(w1, w2), f);
    }
    assert Successes(New(w, w2), IPv4) >= 0;
  }

  lemma RouteToNodeEvents(env: Env, config: seq<Addr>, w: World, service: Service, node: string, target: ServerID)
    ensures var (w', visit) := RouteToNode(env, config, w, service, node, target);
            && Advanced(w, w') && WithinBounds(w, w', service, 1)
            && (visit.GaveUp? ==> NothingListed(New(w, w'), service))
            && !visit.Skipped?
            && (forall e :: e in New(w, w') ==> !e.Probed? && (e.Routed? ==> e.target == target))
            && (visit.Attempted? ==>
                  visit.choice.node == node &&
                  forall f :: FamilyOutcome(config, service, f, target, visit.choice, New(w, w')))
  {
    hide TryFamily, Successes, Candidates, LastRoute, FamilyFailed;
    TryFamilyEvents(env, config, w, service, IPv4, target);
    var (w1, v4) := TryFamily(env, config, w, service, IPv4, target);
    OtherFamilyCounts(New(w, w1), IPv6);
    forall f
      ensures Successes(New(w, w1), f) <= (if f in service.families then 1 else 0)
    {
      match f {
        case IPv4 =>
        case IPv6 =>
      }
    }
    if v4.Tried? {
      TryFamilyEvents(env, config, w1, service, IPv6, target);
      var (w2, v6) := TryFamily(env, config, w1, service, IPv6, target);
      NewChains(w, w1, w2);
      OtherFamilyCounts(New(w1, w2), IPv4);
      CountsOfParts(New(w, w1), New(w1, w2), IPv4);
      CountsOfParts(New(w, w1), New(w1, w2), IPv6);
      forall f
        ensures Successes(New(w, w2), f) <= (if f in service.families then 1 else 0)
      {
        match f {
          case IPv4 =>
          case IPv6 =>
        }
      }
      if v6.Tried? {
        OutcomesJoin(config, service, target, Choice(node, v4.addr, v6.addr), New(w, w1), New(w1, w2));
      }
    }
  }

  lemma OutcomesJoin(config: seq<Addr>, service: Service, target: ServerID, choice: Choice, these: seq<Event>, those: seq<Event>)
    requires AttemptEvents(config, service, IPv4, target, Tried(choice.v4), these)
    requires AttemptEvents(config, service, IPv6, target, Tried(choice.v6), those)
    requires forall e :: e in those && e.Routed? ==> e.addr.family.IPv6?
    ensures forall f :: FamilyOutcome(config, service, f, target, choice, these + those)
  {
    hide FamilyFailed, LastRoute, ListedAndTried;
    if IPv4 in service.families {
      AttemptShows(config, service, IPv4, target, choice.v4, these);
      if choice.v4.Some? {
        NoRoute(those, choice.v4.value);
        LastRouteOfParts(these, those, choice.v4.value);
      } else {
        FailedWithin([], these, those, IPv4, target);
        assert [] + these + those == these + those;
      }
    }
    if IPv6 in service.families {
      AttemptShows(config, service, IPv6, target, choice.v6, those);
      if choice.v6.Some? {
        LastRouteOfParts(these, those, choice.v6.value);
      } else {
        FailedWithin(these, those, [], IPv6, target);
        assert these + those + [] == these + those;
      }
    }
  }

  /** The server a probe shows running, if it does. */
  ghost predicate ShowsRunning(info: Option<ServerInfo>, target: ServerID) {
    !Incomplete(info) && info.value.live.value.state == Some(RUNNING) && info.value.id == Some(target)
  }

  /** Why a node could not take the balancer, as seen at position `i`: its information was
      incomplete, its server was not running, or afterwards every candidate of some wanted
      family failed to route to it. */
  ghost predicate BlockedAt(events: seq<Event>, i: int, node: string, info: Option<ServerInfo>, service: Service) {
    && 0 <= i < |events| && events[i] == Probed(node, info)
    && (|| Incomplete(info)
        || (info.value.live.value.state.Some? && info.value.live.value.state.value != RUNNING)
        || exists f :: f in service.families && FamilyFailed(events[i..], f, info.value.id.value))
  }

  ghost predicate Blocked(events: seq<Event>, node: string, service: Service) {
    exists i, info :: BlockedAt(events, i, node, info, service)
  }

  lemma BlockedWithin(before: seq<Event>, events: seq<Event>, after: seq<Event>, node: string, service: Service)
    requires Blocked(events, node, service)
    ensures Blocked(before + events + after, node, service)
  {
    var i, info :| BlockedAt(events, i, node, info, service);
    assert BlockedAt(events, i, node, info, service);
    var all := before + events + after;
    assert all[|before| + i..] == [] + events[i..] + after;
    if f :| f in service.families && !Incomplete(info) && FamilyFailed(events[i..], f, info.value.id.value) {
      FailedWithin([], events[i..], after, f, info.value.id.value);
    }
    assert BlockedAt(all, |before| + i, node, info, service);
  }

  /** In the round that position `i` begins, the last of these events: the node of the choice was
      seen running, and then each of its addresses, configured and of a wanted family, was
      routed there by the last attempt at that address. */
  ghost predicate RoutedThere(config: seq<Addr>, service: Service, choice: Choice, events: seq<Event>, i: int,
                              info: Option<ServerInfo>, target: ServerID)
  {
    && 0 <= i < |events| && events[i] == Probed(choice.node, info) && ShowsRunning(info, target)
    && (forall m :: i < m < |events| ==> !events[m].Probed?)
    && forall f :: if f in service.families
                   then choice.Of(f).Some? && choice.Of(f).value.family == f && choice.Of(f).value in config &&
                        LastRoute(events[i..], choice.Of(f).value) == Some((target, true))
                   else choice.Of(f).None?
  }

  ghost predicate SoundlyRouted(config: seq<Addr>, service: Service, choice: Choice, events: seq<Event>) {
    exists i, info, target :: RoutedThere(config, service, choice, events, i, info, target)
  }

  lemma VisitNodeEvents(env: Env, config: seq<Addr>, w: World, service: Service, node: string)
    ensures var (w', visit) := VisitNode(env, config, w, service, node);
            && Advanced(w, w') && WithinBounds(w, w', service, 1)
            && (visit.GaveUp? ==> NothingListed(New(w, w'), service))
            && (visit.Skipped? ==> Blocked(New(w, w'), node, service))
            && (visit.Attempted? ==> visit.choice.node == node)
            && (visit.Attempted? && service.families != [] ==>
                  if Complete(service, visit.choice)
                  then SoundlyRouted(config, service, visit.choice, New(w, w'))
                  else Blocked(New(w, w'), node, service))
  {
    hide Probe, RouteToNode, Blocked, SoundlyRouted, FamilyOutcome;
    ProbeReads(env, w, node);
    var (w1, probe) := Probe(env, w, node);
    if probe.Ok? {
      var info := probe.value;
      var first := [Probed(node, info)];
      assert New(w, w1) == first;
      assert first[1..] == [];
      forall f {
        OtherFamilyCounts(first, f);
      }
      if Incomplete(info) || info.value.live.value.state.None? || info.value.live.value.state.value != RUNNING {
        SkippedIsBlocked(service, node, info);
      } else {
        var target := info.value.id.value;
        RouteToNodeEvents(env, config, w1, service, node, target);
        var (w2, visit) := RouteToNode(env, config, w1, service, node, target);
        BoundsAdd(w, w1, w2, service, 0, 1);
        NewChains(w, w1, w2);
        if visit.Attempted? && service.families != [] {
          VisitOutcome(config, service, info, target, visit.choice, New(w1, w2));
        }
      }
    }
  }

  lemma SkippedIsBlocked(service: Service, node: string, info: Option<ServerInfo>)
    ensures Incomplete(info) || (info.value.live.value.state.Some? && info.value.live.value.state.value != RUNNING) ==>
              Blocked([Probed(node, info)], node, service)
  {
    if Incomplete(info) || (info.value.live.value.state.Some? && info.value.live.value.state.value != RUNNING) {
      assert BlockedAt([Probed(node, info)], 0, node, info, service);
    }
  }

  lemma VisitOutcome(config: seq<Addr>, service: Service, info: Option<ServerInfo>, target: ServerID, choice: Choice, events: seq<Event>)
    requires service.families != [] && ShowsRunning(info, target)
    requires forall f :: FamilyOutcome(config, service, f, target, choice, events)
    requires forall e :: e in events ==> !e.Probed?
    ensures var all := [Probed(choice.node, info)] + events;
            if Complete(service, choice) then SoundlyRouted(config, service, choice, all)
            else Blocked(all, choice.node, service)
  {
    var first := [Probed(choice.node, info)];
    var all := first + events;
    assert service.families[0] in service.families;
    assert FamilyOutcome(config, service, IPv4, target, choice, events) && FamilyOutcome(config, service, IPv6, target, choice, events);
    if Complete(service, choice) {
      forall f | f in service.families
        ensures LastRoute(all, choice.Of(f).value) == Some((target, true))
      {
        assert FamilyOutcome(config, service, f, target, choice, events);
        LastRouteOfParts(first, events, choice.Of(f).value);
      }
      assert all[0] == Probed(choice.node, info) && all[0..] == all;
      assert forall m :: 0 < m < |all| ==> all[m] == events[m - 1] && all[m] in events;
      assert RoutedThere(config, service, choice, all, 0, info, target);
    } else {
      var f :| f in service.families && choice.Of(f).None?;
      assert FamilyOutcome(config, service, f, target, choice, events);
      FailedWithin(first, events, [], f, target);
      assert first + events + [] == all && all[0..] == all;
      assert BlockedAt(all, 0, choice.node, info, service);
    }
  }

  /** The whole phase. It sends no more PATCHes than candidates were listed, and routes at most
      one address of each wanted family per visited node. A choice it returns is sound. It
      comes back with nothing only if no family is wanted, a wanted family has nothing listed,
      or every node was blocked. */
  lemma {:induction false} CreateEvents(env: Env, config: seq<Addr>, w: World, service: Service, order: seq<string>)
    ensures var (w', created) := Create(env, config, w, service, order);
            && Advanced(w, w') && WithinBounds(w, w', service, |order|)
            && (created.Ok? && created.value.Some? ==>
                  && created.value.value.node in order
                  && Complete(service, created.value.value)
                  && (service.families != [] ==> SoundlyRouted(config, service, created.value.value, New(w, w'))))
            && (created == Ok(None) ==>
                  || service.families == []
                  || NothingListed(New(w, w'), service)
                  || forall n :: n in order ==> Blocked(New(w, w'), n, service))
    decreases |order|
  {
    hide VisitNode, Blocked, SoundlyRouted, WithinBounds;
    if order == [] {
      assert WithinBounds(w, w, service, 0) by {
        NothingNew(w, service);
      }
    } else {
      VisitNodeEvents(env, config, w, service, order[0]);
      var (w1, visit) := VisitNode(env, config, w, service, order[0]);
      if visit.Skipped? || (visit.Attempted? && !Complete(service, visit.choice)) {
        CreateEvents(env, config, w1, service, order[1..]);
        var (w2, created) := Create(env, config, w1, service, order[1..]);
        NewChains(w, w1, w2);
        BoundsAdd(w, w1, w2, service, 1, |order| - 1);
        CreateStep(config, service, order, New(w, w1), New(w1, w2), created);
      } else {
        MoreRounds(w, w1, service, |order|);
      }
    }
  }

  lemma NothingNew(w: World, service: Service)
    ensures WithinBounds(w, w, service, 0)
  {
    assert New(w, w) == [];
  }

  lemma MoreRounds(w: World, w': World, service: Service, rounds: nat)
    requires rounds >= 1 && w.log <= w'.log && WithinBounds(w, w', service, 1)
    ensures WithinBounds(w, w', service, rounds)
  {
  }

  /** A choice routed soundly at the end is sound whatever was routed before. */
  lemma RoutedLater(config: seq<Addr>, service: Service, choice: Choice, these: seq<Event>, those: seq<Event>)
    requires SoundlyRouted(config, service, choice, those)
    ensures SoundlyRouted(config, service, choice, these + those)
  {
    var i, info, target :| RoutedThere(config, service, choice, those, i, info, target);
    assert RoutedThere(config, service, choice, those, i, info, target);
    var all, k := these + those, |these| + i;
    assert all[k..] == those[i..];
    assert forall m :: k < m < |all| ==> all[m] == those[m - |these|];
    assert RoutedThere(config, service, choice, all, k, info, target);
  }

  /** What later rounds show holds of the whole, and the first node is blocked within it. */
  lemma CreateStep(config: seq<Addr>, service: Service, order: seq<string>, these: seq<Event>, those: seq<Event>, created: Result<Option<Choice>>)
    requires order != []
    requires service.families != [] ==> Blocked(these, order[0], service)
    ensures created.Ok? && created.value.Some? && SoundlyRouted(config, service, created.value.value, those) ==>
              SoundlyRouted(config, service, created.value.value, these + those)
    ensures NothingListed(those, service) ==> NothingListed(these + those, service)
    ensures service.families != [] && (forall n :: n in order[1..] ==> Blocked(those, n, service)) ==>
              forall n :: n in order ==> Blocked(these + those, n, service)
  {
    if created.Ok? && created.value.Some? && SoundlyRouted(config, service, created.value.value, those) {
      RoutedLater(config, service, created.value.value, these, those);
    }
    if service.families != [] && forall n :: n in order[1..] ==> Blocked(those, n, service) {
      forall n | n in order
        ensures Blocked(these + those, n, service)
      {
        if n == order[0] {
          BlockedWithin([], these, those, n, service);
          assert [] + these + those == these + those;
        } else {
          assert n in order[1..];
          BlockedWithin(these, those, [], n, service);
          assert these + those + [] == these + those;
        }
      }
    }
  }

  /******* Routing only to servers just seen running *******/

  /** The last probe before position `i` showed the routing's target running, as the server of one
      of these nodes. */
  ghost predicate JustSeenRunning(events: seq<Event>, i: int, nodes: set<string>)
    requires 0 <= i < |events| && events[i].Routed?
  {
    exists k, n, info :: LastProbe(events, i, k, n, info) && n in nodes && ShowsRunning(info, events[i].target)
  }

  ghost predicate LastProbe(events: seq<Event>, i: int, k: int, node: string, info: Option<ServerInfo>)
    requires 0 <= i < |events|
  {
    0 <= k < i && events[k] == Probed(node, info) && forall m :: k < m < i ==> !events[m].Probed?
  }

  /** Every attempt at routing came in the round of a node that had just been seen running. */
  ghost predicate RoutedWhileRunning(events: seq<Event>, nodes: set<string>) {
    forall i :: 0 <= i < |events| && events[i].Routed? ==> JustSeenRunning(events, i, nodes)
  }

  lemma RunningInParts(these: seq<Event>, those: seq<Event>, nodes: set<string>)
    requires RoutedWhileRunning(these, nodes) && RoutedWhileRunning(those, nodes)
    ensures RoutedWhileRunning(these + those, nodes)
  {
    var all := these + those;
    forall i | 0 <= i < |all| && all[i].Routed?
      ensures JustSeenRunning(all, i, nodes)
    {
      if i < |these| {
        var k, n, info :| LastProbe(these, i, k, n, info) && n in nodes && ShowsRunning(info, these[i].target);
        assert LastProbe(all, i, k, n, info);
      } else {
        var j := i - |these|;
        var k, n, info :| LastProbe(those, j, k, n, info) && n in nodes && ShowsRunning(info, those[j].target);
        assert forall m :: k < m < j ==> all[|these| + m] == those[m];
        assert LastProbe(all, i, |these| + k, n, info);
      }
    }
  }

  lemma NothingRoutedIsFine(events: seq<Event>, nodes: set<string>)
    requires forall e :: e in events ==> !e.Routed?
    ensures RoutedWhileRunning(events, nodes)
  {
  }

  lemma VisitRoutesWhileRunning(env: Env, config: seq<Addr>, w: World, service: Service, node: string, nodes: set<string>)
    requires node in nodes
    ensures var w' := VisitNode(env, config, w, service, node).0;
            w.log <= w'.log && RoutedWhileRunning(New(w, w'), nodes)
  {
    hide Probe, RouteToNode, WithinBounds, FamilyOutcome, NothingListed;
    ProbeReads(env, w, node);
    var (w1, probe) := Probe(env, w, node);
    if probe.Ok? && !Incomplete(probe.value) && probe.value.value.live.value.state == Some(RUNNING) {
      var target := probe.value.value.id.value;
      RouteToNodeEvents(env, config, w1, service, node, target);
      var w2 := RouteToNode(env, config, w1, service, node, target).0;
      NewChains(w, w1, w2);
      assert New(w, w1) == [Probed(node, probe.value)];
      AfterProbe(node, probe.value, New(w1, w2), target, nodes);
    }
  }

  lemma AfterProbe(node: string, info: Option<ServerInfo>, events: seq<Event>, target: ServerID, nodes: set<string>)
    requires node in nodes && ShowsRunning(info, target)
    requires forall e :: e in events ==> !e.Probed? && (e.Routed? ==> e.target == target)
    ensures RoutedWhileRunning([Probed(node, info)] + events, nodes)
  {
    var all := [Probed(node, info)] + events;
    forall i | 0 <= i < |all| && all[i].Routed?
      ensures JustSeenRunning(all, i, nodes)
    {
      assert forall m :: 0 < m <= i ==> all[m] == events[m - 1] && all[m] in events;
      assert LastProbe(all, i, 0, node, info);
    }
  }

  lemma {:induction false} CreateRoutesWhileRunning(env: Env, config: seq<Addr>, w: World, service: Service, order: seq<string>, nodes: set<string>)
    requires forall n :: n in order ==> n in nodes
    ensures var w' := Create(env, config, w, service, order).0;
            w.log <= w'.log && RoutedWhileRunning(New(w, w'), nodes)
    decreases |order|
  {
    hide VisitNode, RoutedWhileRunning;
    if order == [] {
      assert New(w, w) == [];
      NothingRoutedIsFine([], nodes);
    } else {
      assert order[0] in order;
      VisitRoutesWhileRunning(env, config, w, service, order[0], nodes);
      var w1 := VisitNode(env, config, w, service, order[0]).0;
      CreateRoutesWhileRunning(env, config, w1, service, order[1..], nodes);
      var w2 := Create(env, config, w1, service, order[1..]).0;
      NewChains(w, w1, w2);
      RunningInParts(New(w, w1), New(w1, w2), nodes);
    }
  }

  /******* Giving up at once when nothing is listed *******/

  /** A listing of all servers' addresses without a configured one. */
  ghost predicate ListsNothing(e: Event) {
    e.Listed? && e.server.None? && e.addrs == []
  }

  /** Such a listing is the last thing that happens, and only if it is given up there. */
  ghost predicate StopsThere(events: seq<Event>, givenUp: bool) {
    forall i :: 0 <= i < |events| && ListsNothing(events[i]) ==> givenUp && i == |events| - 1
  }

  lemma StopsInParts(these: seq<Event>, those: seq<Event>, givenUp: bool)
    requires StopsThere(these, false) && StopsThere(those, givenUp)
    ensures StopsThere(these + those, givenUp)
  {
    assert forall i :: 0 <= i < |these| ==> !ListsNothing(these[i]);
    forall i | 0 <= i < |these + those| && ListsNothing((these + those)[i])
      ensures givenUp && i == |these + those| - 1
    {
      assert |these| <= i;
      assert (these + those)[i] == those[i - |these|];
    }
  }

  lemma TryStops(config: seq<Addr>, service: Service, family: Family, target: ServerID, attempt: Attempt, events: seq<Event>)
    requires AttemptEvents(config, service, family, target, attempt, events)
    ensures StopsThere(events, attempt.NoneListed?)
  {
    if attempt.Tried? && family in service.families {
      var addrs: seq<Addr>, k: nat :| ListedAndTried(config, family, target, attempt.addr, events, addrs, k);
      assert ListedAndTried(config, family, target, attempt.addr, events, addrs, k);
      forall i | 0 <= i < |events|
        ensures !ListsNothing(events[i])
      {
        if i > 0 {
          assert events[i] == Tries(addrs, target, attempt.addr, k)[i - 1];
        }
      }
    }
  }

  lemma VisitStops(env: Env, config: seq<Addr>, w: World, service: Service, node: string)
    ensures var (w', visit) := VisitNode(env, config, w, service, node);
            w.log <= w'.log && StopsThere(New(w, w'), visit.GaveUp?)
  {
    hide Probe, TryFamily, AttemptEvents, StopsThere, Candidates, Successes;
    ProbeReads(env, w, node);
    var (w1, probe) := Probe(env, w, node);
    NothingListedStops([]);
    if probe.Ok? {
      NothingListedStops([Probed(node, probe.value)]);
    }
    if probe.Ok? && !Incomplete(probe.value) && probe.value.value.live.value.state == Some(RUNNING) {
      var target := probe.value.value.id.value;
      assert New(w, w1) == [Probed(node, probe.value)];
      TryFamilyEvents(env, config, w1, service, IPv4, target);
      var (w2, v4) := TryFamily(env, config, w1, service, IPv4, target);
      TryStops(config, service, IPv4, target, v4, New(w1, w2));
      NewChains(w, w1, w2);
      StopsInParts(New(w, w1), New(w1, w2), v4.NoneListed?);
      if v4.Tried? {
        TryFamilyEvents(env, config, w2, service, IPv6, target);
        var (w3, v6) := TryFamily(env, config, w2, service, IPv6, target);
        TryStops(config, service, IPv6, target, v6, New(w2, w3));
        NewChains(w, w2, w3);
        StopsInParts(New(w, w2), New(w2, w3), v6.NoneListed?);
      }
    } else {
      assert New(w, w1) == if probe.Ok? then [Probed(node, probe.value)] else [];
    }
  }

  lemma NothingListedStops(events: seq<Event>)
    requires forall e :: e in events ==> !ListsNothing(e)
    ensures StopsThere(events, false)
  {
    assert forall i :: 0 <= i < |events| ==> events[i] in events;
  }

  /** The creation phase gives up at once when a wanted family has no configured address listed:
      nothing is probed, listed or routed any more, and the phase comes back with nothing. */
  lemma {:induction false} CreateStops(env: Env, config: seq<Addr>, w: World, service: Service, order: seq<string>)
    ensures var (w', created) := Create(env, config, w, service, order);
            w.log <= w'.log && StopsThere(New(w, w'), created == Ok(None))
    decreases |order|
  {
    hide VisitNode, StopsThere;
    if order == [] {
      assert New(w, w) == [];
      NothingListedStops([]);
      StopsAnyway([], true);
    } else {
      VisitStops(env, config, w, service, order[0]);
      var (w1, visit) := VisitNode(env, config, w, service, order[0]);
      if visit.Skipped? || (visit.Attempted? && !Complete(service, visit.choice)) {
        CreateStops(env, config, w1, service, order[1..]);
        var (w2, created) := Create(env, config, w1, service, order[1..]);
        NewChains(w, w1, w2);
        StopsInParts(New(w, w1), New(w1, w2), created == Ok(None));
      }
    }
  }

  lemma StopsAnyway(events: seq<Event>, givenUp: bool)
    requires StopsThere(events, false)
    ensures StopsThere(events, givenUp)
  {
  }
}
