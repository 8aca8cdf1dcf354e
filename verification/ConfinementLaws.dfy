/** Which addresses move, and where to, over whole runs of the controller. */
module ConfinementLaws {
  import opened Basics
  import opened Stores
  import opened CloudSpec
  import opened BalancerSpec
  import opened EventLaws
  import opened WorldLaws
  import opened CreationLaws
  import opened BalancerLaws
  import SelectLaws
  import RoutingLaws
  import LabelSpec
  import SearchLaws

  /******* Moves are due to PATCHes that were sent *******/

  /** The tables differ at most in which server an address is on. */
  ghost predicate SameShape(scp: Scp, scp': Scp) {
    && scp'.servers == scp.servers && scp'.infos == scp.infos
    && forall f: Family ::
         && |scp'.Records(f)| == |scp.Records(f)|
         && forall i :: 0 <= i < |scp.Records(f)| ==>
              scp'.Records(f)[i].id == scp.Records(f)[i].id && scp'.Records(f)[i].text == scp.Records(f)[i].text
  }

  /** A PATCH that explains the server of a record. */
  ghost predicate Explains(p: Patch, family: Family, record: Record) {
    p.family == family && record.id == Some(p.id) && record.server == Some(p.target)
  }

  ghost predicate ExplainedIn(sent: seq<Patch>, family: Family, record: Record) {
    exists p :: p in sent && Explains(p, family, record)
  }

  ghost predicate MovedBy(scp: Scp, scp': Scp, sent: seq<Patch>) {
    && SameShape(scp, scp')
    && forall f: Family, i :: 0 <= i < |scp.Records(f)| ==>
         scp'.Records(f)[i].server == scp.Records(f)[i].server || ExplainedIn(sent, f, scp'.Records(f)[i])
  }

  /** From one state of the stores to a later one. */
  ghost predicate Moves(r: Remote, r': Remote) {
    r.issued <= r'.issued && MovedBy(r.scp, r'.scp, r'.issued)
  }

  lemma MovesStill(r: Remote)
    ensures Moves(r, r)
  {
  }

  lemma ExplainedMore(sent: seq<Patch>, more: seq<Patch>, family: Family, record: Record)
    requires sent <= more && ExplainedIn(sent, family, record)
    ensures ExplainedIn(more, family, record)
  {
    var p :| p in sent && Explains(p, family, record);
    var k :| 0 <= k < |sent| && sent[k] == p;
    assert more[k] == p;
  }

  lemma MovesOn(r: Remote, r1: Remote, r2: Remote)
    requires Moves(r, r1) && Moves(r1, r2)
    ensures Moves(r, r2)
  {
    assert r.issued <= r2.issued by {
      assert r1.issued == r2.issued[..|r1.issued|];
    }
    forall f: Family, i | 0 <= i < |r.scp.Records(f)|
      ensures r2.scp.Records(f)[i].server == r.scp.Records(f)[i].server || ExplainedIn(r2.issued, f, r2.scp.Records(f)[i])
    {
      if r2.scp.Records(f)[i].server == r1.scp.Records(f)[i].server && ExplainedIn(r1.issued, f, r1.scp.Records(f)[i]) {
        ExplainedMore(r1.issued, r2.issued, f, r1.scp.Records(f)[i]);
        assert r2.scp.Records(f)[i] == r1.scp.Records(f)[i];
      }
    }
  }

  lemma PatchMoves(scp: Scp, p: Patch, sent: seq<Patch>)
    requires p in sent
    ensures MovedBy(scp, ApplyPatch(scp, p), sent)
  {
    forall f: Family, i | 0 <= i < |scp.Records(f)|
      ensures var after := ApplyPatch(scp, p).Records(f)[i];
              after.server == scp.Records(f)[i].server || ExplainedIn(sent, f, after)
    {
      var after := ApplyPatch(scp, p).Records(f)[i];
      if after.server != scp.Records(f)[i].server {
        assert Explains(p, f, after);
      }
    }
  }

  lemma {:induction false} LateMoves(which: seq<nat>, issued: seq<Patch>, scp: Scp)
    ensures MovedBy(scp, ApplyLate(which, issued, scp), issued)
  {
    if which != [] {
      var next := if which[0] < |issued| then ApplyPatch(scp, issued[which[0]]) else scp;
      if which[0] < |issued| {
        PatchMoves(scp, issued[which[0]], issued);
      }
      LateMoves(which[1..], issued, next);
      MovesOn(Remote(scp, Nowhere(), 0, issued), Remote(next, Nowhere(), 0, issued),
              Remote(ApplyLate(which, issued, scp), Nowhere(), 0, issued));
    }
  }

  ghost function Nowhere(): Kube {
    Kube(map[], [], [], map[])
  }

  lemma TickMoves(env: Env, r: Remote)
    requires Undisturbed(env)
    ensures Moves(r, Tick(env, r))
  {
    LateMoves(LateOf(env, r.clock), r.issued, r.scp);
    assert DriftOf(env, r.clock, ApplyLate(LateOf(env, r.clock), r.issued, r.scp)) == ApplyLate(LateOf(env, r.clock), r.issued, r.scp);
  }

  lemma PatchFailoverMoves(env: Env, r: Remote, p: Patch)
    requires Undisturbed(env)
    ensures Moves(r, PatchFailover(env, r, p).0)
  {
    hide Tick;
    TickMoves(env, r);
    var r1 := Tick(env, r);
    var r2 := PatchFailover(env, r, p).0;
    assert p in r2.issued by {
      assert r2.issued[|r1.issued|] == p;
    }
    PatchMoves(r1.scp, p, r2.issued);
    assert Moves(r1, r2);
    MovesOn(r, r1, r2);
  }

  lemma LookUpMoves(env: Env, w: World, name: string)
    requires Undisturbed(env)
    ensures Moves(w.remote, LookUp(env, w, name).0.remote)
  {
    hide Tick, Moves;
    TickMoves(env, w.remote);
    MovesStill(w.remote);
  }

  lemma ProbeMoves(env: Env, w: World, name: string)
    requires Undisturbed(env)
    ensures Moves(w.remote, Probe(env, w, name).0.remote)
  {
    hide Tick, Moves, LookUp;
    LookUpMoves(env, w, name);
    var r1 := LookUp(env, w, name).0.remote;
    TickMoves(env, r1);
    MovesOn(w.remote, r1, Tick(env, r1));
  }

  lemma FailoversMoves(env: Env, config: seq<Addr>, w: World, family: Family, node: Option<string>)
    requires Undisturbed(env)
    ensures Moves(w.remote, Failovers(env, config, w, family, node).0.remote)
  {
    hide Tick, Moves, LookUp;
    MovesStill(w.remote);
    if node.Some? {
      LookUpMoves(env, w, node.value);
    }
    var r1 := if node.Some? then LookUp(env, w, node.value).0.remote else w.remote;
    TickMoves(env, r1);
    MovesOn(w.remote, r1, Tick(env, r1));
  }

  lemma HostedMoves(env: Env, config: seq<Addr>, w: World, service: Service, family: Family, node: string)
    requires Undisturbed(env)
    ensures Moves(w.remote, Hosted(env, config, w, service, family, node).0.remote)
  {
    hide Moves, Failovers;
    MovesStill(w.remote);
    FailoversMoves(env, config, w, family, Some(node));
  }

  lemma BothHostedMove(env: Env, config: seq<Addr>, w: World, service: Service, node: string)
    requires Undisturbed(env)
    ensures var w1 := Hosted(env, config, w, service, IPv4, node).0;
            Moves(w.remote, w1.remote) && Moves(w.remote, Hosted(env, config, w1, service, IPv6, node).0.remote)
  {
    hide Moves, Hosted;
    HostedMoves(env, config, w, service, IPv4, node);
    var w1 := Hosted(env, config, w, service, IPv4, node).0;
    HostedMoves(env, config, w1, service, IPv6, node);
    MovesOn(w.remote, w1.remote, Hosted(env, config, w1, service, IPv6, node).0.remote);
  }

  lemma ExistsMoves(env: Env, config: seq<Addr>, w: World, service: Service)
    requires Undisturbed(env)
    ensures Moves(w.remote, Exists(env, config, w, service).0.remote)
  {
    hide Moves, Hosted;
    MovesStill(w.remote);
    if service.nodeLabel.Some? {
      BothHostedMove(env, config, w, service, service.nodeLabel.value);
    }
  }

  lemma {:induction false} SearchMoves(env: Env, config: seq<Addr>, w: World, service: Service, order: seq<string>)
    requires Undisturbed(env)
    ensures Moves(w.remote, Search(env, config, w, service, order).0.remote)
    decreases |order|
  {
    hide Moves, Hosted;
    MovesStill(w.remote);
    if order != [] {
      BothHostedMove(env, config, w, service, order[0]);
      var w1 := SearchNode(env, config, w, service, order[0]).0;
      SearchMoves(env, config, w1, service, order[1..]);
      MovesOn(w.remote, w1.remote, Search(env, config, w1, service, order[1..]).0.remote);
    }
  }

  /******* PATCHes are sent for configured addresses, towards running servers *******/

  ghost function Sent(r: Remote, r': Remote): seq<Patch>
    requires r.issued <= r'.issued
  {
    r'.issued[|r.issued|..]
  }

  lemma SentInParts(r: Remote, r1: Remote, r2: Remote)
    requires r.issued <= r1.issued <= r2.issued
    ensures r.issued <= r2.issued && Sent(r, r2) == Sent(r, r1) + Sent(r1, r2)
  {
    assert r1.issued == r2.issued[..|r1.issued|];
    assert r.issued == r2.issued[..|r.issued|];
  }

  /** The PATCH is for this address: the record it names carries the address's canonical text. */
  ghost predicate Names(scp: Scp, p: Patch, a: Addr) {
    && a.family == p.family
    && exists i :: 0 <= i < |scp.Records(p.family)| &&
                   scp.Records(p.family)[i].id == Some(p.id) && scp.Records(p.family)[i].text == Some(TextOf(a))
  }

  lemma SameNames(scp: Scp, scp': Scp, p: Patch, a: Addr)
    requires SameShape(scp, scp')
    ensures Names(scp', p, a) <==> Names(scp, p, a)
  {
    if Names(scp', p, a) {
      var i :| 0 <= i < |scp'.Records(p.family)| &&
               scp'.Records(p.family)[i].id == Some(p.id) && scp'.Records(p.family)[i].text == Some(TextOf(a));
      assert scp.Records(p.family)[i].id == Some(p.id);
    }
    if Names(scp, p, a) {
      var i :| 0 <= i < |scp.Records(p.family)| &&
               scp.Records(p.family)[i].id == Some(p.id) && scp.Records(p.family)[i].text == Some(TextOf(a));
      assert scp'.Records(p.family)[i].id == Some(p.id);
    }
  }

  /** The attempt at position `i` accounts for a PATCH: it was at routing the configured address
      the PATCH is for, to the PATCH's target. */
  ghost predicate Attempted(config: seq<Addr>, scp: Scp, events: seq<Event>, i: int, p: Patch) {
    && 0 <= i < |events| && events[i].Routed?
    && events[i].target == p.target && events[i].addr in config && Names(scp, p, events[i].addr)
  }

  ghost predicate AccountedFor(config: seq<Addr>, scp: Scp, events: seq<Event>, p: Patch) {
    exists i :: Attempted(config, scp, events, i, p)
  }

  lemma AccountedWithin(config: seq<Addr>, scp: Scp, scp': Scp, before: seq<Event>, events: seq<Event>, after: seq<Event>, p: Patch)
    requires SameShape(scp, scp') && AccountedFor(config, scp', events, p)
    ensures AccountedFor(config, scp, before + events + after, p)
  {
    var i :| Attempted(config, scp', events, i, p);
    SameNames(scp, scp', p, events[i].addr);
    assert (before + events + after)[|before| + i] == events[i];
    assert Attempted(config, scp, before + events + after, |before| + i, p);
  }

  /** Addresses move only through PATCHes, and each PATCH sent in between is accounted for by an
      attempt in between. */
  ghost predicate Confined(config: seq<Addr>, w: World, w': World) {
    && w.log <= w'.log && Moves(w.remote, w'.remote)
    && forall p :: p in Sent(w.remote, w'.remote) ==> AccountedFor(config, w.remote.scp, New(w, w'), p)
  }

  lemma ConfinedOn(config: seq<Addr>, w: World, w1: World, w2: World)
    requires Confined(config, w, w1) && Confined(config, w1, w2)
    ensures Confined(config, w, w2)
  {
    hide MovedBy, AccountedFor, SameShape;
    NewChains(w, w1, w2);
    MovesOn(w.remote, w1.remote, w2.remote);
    SentInParts(w.remote, w1.remote, w2.remote);
    ShapeKept(w.remote, w1.remote);
    SameShapeAsItself(w.remote);
    forall p | p in Sent(w.remote, w2.remote)
      ensures AccountedFor(config, w.remote.scp, New(w, w2), p)
    {
      if p in Sent(w1.remote, w2.remote) {
        AccountedWithin(config, w.remote.scp, w1.remote.scp, New(w, w1), New(w1, w2), [], p);
        assert New(w, w1) + New(w1, w2) + [] == New(w, w2);
      } else {
        AccountedWithin(config, w.remote.scp, w.remote.scp, [], New(w, w1), New(w1, w2), p);
        assert [] + New(w, w1) + New(w1, w2) == New(w, w2);
      }
    }
  }

  lemma SameShapeAsItself(r: Remote)
    ensures SameShape(r.scp, r.scp)
  {
  }

  lemma NothingSentIsConfined(config: seq<Addr>, w: World, w': World)
    requires w.log <= w'.log && Moves(w.remote, w'.remote) && w'.remote.issued == w.remote.issued
    ensures Confined(config, w, w')
  {
    assert Sent(w.remote, w'.remote) == [];
  }

  lemma ShapeKept(r: Remote, r': Remote)
    requires Moves(r, r')
    ensures SameShape(r.scp, r'.scp)
  {
  }

  lemma IssuedByPatch(env: Env, r: Remote, r1: Remote, p: Patch)
    requires r1 == Tick(env, r)
    ensures r1.issued == r.issued && PatchFailover(env, r1, p).0.issued == r.issued + [p]
  {
  }

  lemma RouteConfined(env: Env, config: seq<Addr>, w: World, addr: Addr, target: ServerID)
    requires Undisturbed(env) && addr in config
    ensures Confined(config, w, Route(env, w, addr, target).0)
  {
    hide Tick, MovedBy, SameShape;
    var r := w.remote;
    var w' := Route(env, w, addr, target).0;
    TickMoves(env, r);
    var (r1, listing) := ListFailovers(env, r, addr.family, None);
    IssuedByPatch(env, r, r1, Patch(addr.family, 0, target));
    if listing.Err? || FirstComplete(listing.value, TextOf(addr)).None? {
      NothingSentIsConfined(config, w, w');
    } else {
      RoutingLaws.FirstCompleteIsFirst(listing.value, TextOf(addr));
      var p := Patch(addr.family, FirstComplete(listing.value, TextOf(addr)).value, target);
      var i :| RoutingLaws.FirstCarrying(listing.value, TextOf(addr), i) && listing.value[i].id == Some(p.id);
      assert RoutingLaws.FirstCarrying(listing.value, TextOf(addr), i);
      assert Names(r1.scp, p, addr) by {
        assert r1.scp.Records(p.family)[i].id == Some(p.id) && r1.scp.Records(p.family)[i].text == Some(TextOf(addr));
      }
      ShapeKept(r, r1);
      SameNames(r.scp, r1.scp, p, addr);
      PatchFailoverMoves(env, r1, p);
      IssuedByPatch(env, r, r1, p);
      MovesOn(r, r1, w'.remote);
      assert Sent(r, w'.remote) == [p];
      assert New(w, w')[0].Routed? && New(w, w')[0].addr == addr && New(w, w')[0].target == target;
      assert Attempted(config, r.scp, New(w, w'), 0, p);
    }
  }

  lemma {:induction false} RouteFirstConfined(env: Env, config: seq<Addr>, w: World, addrs: seq<Addr>, target: ServerID)
    requires Undisturbed(env) && forall a :: a in addrs ==> a in config
    ensures Confined(config, w, RouteFirst(env, w, addrs, target).0)
    decreases |addrs|
  {
    hide Confined, RouteUnderLock;
    if addrs == [] {
      MovesStill(w.remote);
      NothingSentIsConfined(config, w, w);
    } else {
      assert addrs[0] in addrs;
      RouteConfined(env, config, w, addrs[0], target);
      var (w1, routed) := Route(env, w, addrs[0], target);
      if routed.Err? {
        RouteFirstConfined(env, config, w1, addrs[1..], target);
        ConfinedOn(config, w, w1, RouteFirst(env, w1, addrs[1..], target).0);
      }
    }
  }

  lemma TryFamilyConfined(env: Env, config: seq<Addr>, w: World, service: Service, family: Family, target: ServerID)
    requires Undisturbed(env)
    ensures Confined(config, w, TryFamily(env, config, w, service, family, target).0)
  {
    hide Confined, Failovers, RouteFirst, Moves;
    MovesStill(w.remote);
    NothingSentIsConfined(config, w, w);
    if family in service.families {
      FailoversMoves(env, config, w, family, None);
      FailoversReads(env, config, w, family, None);
      SelectLaws.FailoversOfFamily(env, config, w, family, None);
      var (w1, addrs) := Failovers(env, config, w, family, None);
      NothingSentIsConfined(config, w, w1);
      if addrs.Ok? {
        RouteFirstConfined(env, config, w1, addrs.value, target);
        ConfinedOn(config, w, w1, RouteFirst(env, w1, addrs.value, target).0);
      }
    }
  }

  lemma VisitNodeConfined(env: Env, config: seq<Addr>, w: World, service: Service, node: string)
    requires Undisturbed(env)
    ensures Confined(config, w, VisitNode(env, config, w, service, node).0)
  {
    hide Probe, TryFamily, Moves, Confined;
    ProbeMoves(env, w, node);
    ProbeReads(env, w, node);
    var (w1, probe) := Probe(env, w, node);
    NothingSentIsConfined(config, w, w1);
    if probe.Ok? && !Incomplete(probe.value) && probe.value.value.live.value.state == Some(RUNNING) {
      var target := probe.value.value.id.value;
      TryFamilyConfined(env, config, w1, service, IPv4, target);
      var w2 := TryFamily(env, config, w1, service, IPv4, target).0;
      ConfinedOn(config, w, w1, w2);
      TryFamilyConfined(env, config, w2, service, IPv6, target);
      ConfinedOn(config, w, w2, TryFamily(env, config, w2, service, IPv6, target).0);
    }
  }

  lemma {:induction false} CreateConfined(env: Env, config: seq<Addr>, w: World, service: Service, order: seq<string>)
    requires Undisturbed(env)
    ensures Confined(config, w, Create(env, config, w, service, order).0)
    decreases |order|
  {
    hide Confined, VisitNode;
    if order == [] {
      MovesStill(w.remote);
      NothingSentIsConfined(config, w, w);
    } else {
      VisitNodeConfined(env, config, w, service, order[0]);
      var w1 := VisitNode(env, config, w, service, order[0]).0;
      CreateConfined(env, config, w1, service, order[1..]);
      ConfinedOn(config, w, w1, Create(env, config, w1, service, order[1..]).0);
    }
  }

  /******* Labelling *******/

  lemma {:induction false} ResetEachMoves(env: Env, r: Remote, nodes: seq<string>, labelName: string, exclude: Option<string>)
    requires Undisturbed(env)
    ensures Moves(r, LabelSpec.ResetEach(env, r, nodes, labelName, exclude).0)
    decreases |nodes|
  {
    hide Moves;
    MovesStill(r);
    if nodes != [] {
      var next := if Some(nodes[0]) == exclude then r else LabelNode(env, r, nodes[0], labelName, "false").0;
      KubeMoves(env, r, LabelNode(env, r, nodes[0], labelName, "false").0.kube);
      ResetEachMoves(env, next, nodes[1..], labelName, exclude);
      MovesOn(r, next, LabelSpec.ResetEach(env, next, nodes[1..], labelName, exclude).0);
    }
  }

  /** A call on Kubernetes lets time pass for SCP. */
  lemma KubeMoves(env: Env, r: Remote, kube: Kube)
    requires Undisturbed(env)
    ensures Moves(r, Tick(env, r)) && Moves(r, Tick(env, r).(kube := kube))
  {
    TickMoves(env, r);
  }

  lemma ResetMoves(env: Env, r: Remote, labelName: string, exclude: Option<string>)
    requires Undisturbed(env)
    ensures Moves(r, LabelSpec.Reset(env, r, labelName, exclude).0)
  {
    hide Moves;
    KubeMoves(env, r, r.kube);
    var (r1, marked) := ListMarkedNodes(env, r, labelName);
    if marked.Ok? {
      ResetEachMoves(env, r1, marked.value, labelName, exclude);
      MovesOn(r, r1, LabelSpec.ResetEach(env, r1, marked.value, labelName, exclude).0);
    }
  }

  lemma UpdateMoves(env: Env, r: Remote, service: Service, node: string)
    requires Undisturbed(env)
    ensures Moves(r, LabelSpec.Update(env, r, service, node).0)
  {
    hide Moves, LabelSpec.Reset;
    var labelName := LabelName(service.name);
    ResetMoves(env, r, labelName, Some(node));
    var r1 := LabelSpec.Reset(env, r, labelName, Some(node)).0;
    var r2 := PatchService(env, r1, service, LabelSpec.Labelled(service, node)).0;
    KubeMoves(env, r1, r2.kube);
    MovesOn(r, r1, r2);
    var r3 := LabelNode(env, r2, node, labelName, "true").0;
    KubeMoves(env, r2, r3.kube);
    MovesOn(r, r2, r3);
  }

  lemma RemoveMoves(env: Env, r: Remote, service: Service, clearStatus: bool)
    requires Undisturbed(env)
    ensures Moves(r, LabelSpec.Remove(env, r, service, clearStatus).0)
  {
    hide Moves, LabelSpec.Reset;
    var r1 := PatchService(env, r, service, LabelSpec.Unlabelled(service, clearStatus)).0;
    KubeMoves(env, r, r1.kube);
    ResetMoves(env, r1, LabelName(service.name), None);
    MovesOn(r, r1, LabelSpec.Reset(env, r1, LabelName(service.name), None).0);
  }

  lemma CreateStatusMoves(env: Env, r: Remote, service: Service, node: string)
    requires Undisturbed(env)
    ensures Moves(r, LabelSpec.CreateStatus(env, r, service, node).0)
  {
    hide Moves, LabelSpec.Update, LabelSpec.Remove;
    UpdateMoves(env, r, service, node);
    RemoveMoves(env, r, service, false);
    var r1 := LabelSpec.Remove(env, r, service, false).0;
    UpdateMoves(env, r1, service, node);
    MovesOn(r, r1, LabelSpec.Update(env, r1, service, node).0);
  }

  /******* A call *******/

  lemma KeepConfined(env: Env, config: seq<Addr>, w: World, service: Service, ready: set<string>)
    requires Undisturbed(env)
    ensures Confined(config, w, Keep(env, config, w, service, ready).0)
  {
    hide Exists, Moves, LabelSpec.Update, Confined;
    KeepEvents(env, config, w, service, ready);
    MovesStill(w.remote);
    ExistsMoves(env, config, w, service);
    var w1 := Exists(env, config, w, service).0;
    if service.nodeLabel.Some? {
      var r := LabelSpec.Update(env, w1.remote, service, service.nodeLabel.value).0;
      UpdateMoves(env, w1.remote, service, service.nodeLabel.value);
      MovesOn(w.remote, w1.remote, r);
    }
    NothingSentIsConfined(config, w, Keep(env, config, w, service, ready).0);
  }

  lemma ChooseConfined(env: Env, config: seq<Addr>, w: World, service: Service, searchOrder: seq<string>, createOrder: seq<string>)
    requires Undisturbed(env)
    ensures Confined(config, w, Choose(env, config, w, service, searchOrder, createOrder).0)
  {
    hide Search, Create, Confined, Moves;
    SearchMoves(env, config, w, service, searchOrder);
    SearchLaws.SearchEvents(env, config, w, service, searchOrder);
    var w1 := Search(env, config, w, service, searchOrder).0;
    NothingSentIsConfined(config, w, w1);
    CreateConfined(env, config, w1, service, createOrder);
    ConfinedOn(config, w, w1, Create(env, config, w1, service, createOrder).0);
  }

  /** Whatever happens outside: a call attempts to route an address to a server only right after
      the probe, in the same round, that showed this server running for a ready node. */
  lemma CallRoutesWhileRunning(env: Env, config: seq<Addr>, w: World, service: Service, ready: set<string>,
                               searchOrder: seq<string>, createOrder: seq<string>)
    requires IsOrder(createOrder, ready)
    ensures var w' := Ensure(env, config, w, service, ready, searchOrder, createOrder).0;
            w.log <= w'.log && RoutedWhileRunning(New(w, w'), ready)
  {
    hide Keep, Search, Create, Ensure, RoutedWhileRunning, LabelSpec.CreateStatus;
    var (w1, kept) := Keep(env, config, w, service, ready);
    KeepEvents(env, config, w, service, ready);
    NothingRoutedIsFine(New(w, w1), ready);
    ContinuesWithChoose(env, config, w, service, ready, searchOrder, createOrder);
    if kept == Ok(false) {
      SearchLaws.SearchEvents(env, config, w1, service, searchOrder);
      var (w2, found) := Search(env, config, w1, service, searchOrder);
      NothingRoutedIsFine(New(w1, w2), ready);
      RunningOn(w, w1, w2, ready);
      if found == Ok(None) {
        CreateRoutesWhileRunning(env, config, w2, service, createOrder, ready);
        RunningOn(w, w2, Create(env, config, w2, service, createOrder).0, ready);
      }
      var w3 := Choose(env, config, w1, service, searchOrder, createOrder).0;
      assert New(w, Ensure(env, config, w, service, ready, searchOrder, createOrder).0) == New(w, w3);
    }
  }

  lemma RunningOn(w: World, w1: World, w2: World, nodes: set<string>)
    requires w.log <= w1.log <= w2.log
    requires RoutedWhileRunning(New(w, w1), nodes) && RoutedWhileRunning(New(w1, w2), nodes)
    ensures w.log <= w2.log && RoutedWhileRunning(New(w, w2), nodes)
  {
    NewChains(w, w1, w2);
    RunningInParts(New(w, w1), New(w1, w2), nodes);
  }

  /** In an undisturbed environment, one call moves addresses only through the PATCHes it or earlier
      calls sent; each PATCH it sends is accounted for by an attempt of its own at routing a
      configured address; and each attempt came in the round of a ready node, after the probe
      that showed the target running as that node's server. */
  lemma CallIsConfined(env: Env, config: seq<Addr>, w: World, service: Service, ready: set<string>,
                       searchOrder: seq<string>, createOrder: seq<string>)
    requires Undisturbed(env) && IsOrder(createOrder, ready)
    ensures var w' := Ensure(env, config, w, service, ready, searchOrder, createOrder).0;
            Confined(config, w, w') && RoutedWhileRunning(New(w, w'), ready)
  {
    hide Keep, Choose, Confined, Moves, LabelSpec.CreateStatus, RoutedWhileRunning;
    CallRoutesWhileRunning(env, config, w, service, ready, searchOrder, createOrder);
    var (w1, kept) := Keep(env, config, w, service, ready);
    KeepConfined(env, config, w, service, ready);
    if kept == Ok(false) {
      var (w2, chosen) := Choose(env, config, w1, service, searchOrder, createOrder);
      ChooseConfined(env, config, w1, service, searchOrder, createOrder);
      ConfinedOn(config, w, w1, w2);
      if chosen.Ok? && chosen.value.Some? {
        var node := chosen.value.value.node;
        CreateStatusMoves(env, w2.remote, service, node);
        CreateStatusOnlyLabels(env, w2.remote, service, node);
        var w3 := Establish(env, w2, service, chosen.value.value).0;
        NothingSentIsConfined(config, w2, w3);
        ConfinedOn(config, w, w2, w3);
      }
    }
  }

  /******* A run *******/

  /** One call of a run: what Kubernetes holds when it begins, and its arguments and orders. */
  datatype Call = Call(kube: Kube, service: Service, ready: set<string>, searchOrder: seq<string>, createOrder: seq<string>)

  ghost function Begin(w: World, c: Call): World {
    w.(remote := w.remote.(kube := c.kube))
  }

  ghost function RunOne(env: Env, config: seq<Addr>, w: World, c: Call): World {
    Ensure(env, config, Begin(w, c), c.service, c.ready, c.searchOrder, c.createOrder).0
  }

  ghost function Run(env: Env, config: seq<Addr>, w: World, calls: seq<Call>): World
    decreases |calls|
  {
    if calls == [] then w else Run(env, config, RunOne(env, config, w, calls[0]), calls[1..])
  }

  /** The call that leads from one world to the other sent this PATCH, on account of an attempt of
      its own at routing a configured address, made in the round of a node of `ready` that the
      call had just probed and seen running on the PATCH's target. */
  ghost predicate SentByCall(config: seq<Addr>, w: World, w': World, ready: set<string>, p: Patch) {
    && w.log <= w'.log && w.remote.issued <= w'.remote.issued && p in Sent(w.remote, w'.remote)
    && exists i :: Attempted(config, w.remote.scp, New(w, w'), i, p) && JustSeenRunning(New(w, w'), i, ready)
  }

  /** Some call of the run sent this PATCH. */
  ghost predicate SentInRun(env: Env, config: seq<Addr>, w: World, calls: seq<Call>, p: Patch) {
    exists n :: 0 <= n < |calls| &&
      SentByCall(config, Run(env, config, w, calls[..n]), Run(env, config, w, calls[..n + 1]), calls[n].ready, p)
  }

  lemma OneCallOfRun(env: Env, config: seq<Addr>, w: World, c: Call)
    requires Undisturbed(env) && IsOrder(c.createOrder, c.ready)
    ensures var w1 := RunOne(env, config, w, c);
            && w.remote.issued <= w1.remote.issued && Moves(w.remote, w1.remote)
            && forall p :: p in Sent(w.remote, w1.remote) ==> SentByCall(config, w, w1, c.ready, p)
  {
    hide Ensure, MovedBy;
    CallIsConfined(env, config, Begin(w, c), c.service, c.ready, c.searchOrder, c.createOrder);
    var w1 := RunOne(env, config, w, c);
    assert New(w, w1) == New(Begin(w, c), w1);
    forall p | p in Sent(w.remote, w1.remote)
      ensures SentByCall(config, w, w1, c.ready, p)
    {
      assert AccountedFor(config, w.remote.scp, New(w, w1), p);
      var i :| Attempted(config, w.remote.scp, New(w, w1), i, p);
      assert JustSeenRunning(New(w, w1), i, c.ready);
    }
  }

  lemma SentLater(env: Env, config: seq<Addr>, w: World, calls: seq<Call>, p: Patch)
    requires calls != [] && SentInRun(env, config, RunOne(env, config, w, calls[0]), calls[1..], p)
    ensures SentInRun(env, config, w, calls, p)
  {
    hide RunOne, SentByCall;
    var w1, rest := RunOne(env, config, w, calls[0]), calls[1..];
    var n :| 0 <= n < |rest| &&
             SentByCall(config, Run(env, config, w1, rest[..n]), Run(env, config, w1, rest[..n + 1]), rest[n].ready, p);
    assert calls[..n + 1][1..] == rest[..n] && calls[..n + 2][1..] == rest[..n + 1];
    assert calls[..n + 1][0] == calls[0] && calls[..n + 2][0] == calls[0] && calls[n + 1] == rest[n];
    assert SentByCall(config, Run(env, config, w, calls[..n + 1]), Run(env, config, w, calls[..n + 2]), calls[n + 1].ready, p);
  }

  lemma SentFirst(env: Env, config: seq<Addr>, w: World, calls: seq<Call>, p: Patch)
    requires calls != []
    ensures SentByCall(config, w, RunOne(env, config, w, calls[0]), calls[0].ready, p) ==> SentInRun(env, config, w, calls, p)
  {
    hide RunOne, SentByCall;
    assert calls[..1][1..] == [] && calls[..0] == [];
    assert Run(env, config, w, calls[..1]) == RunOne(env, config, w, calls[0]);
    assert Run(env, config, w, calls[..0]) == w;
    assert SentByCall(config, w, RunOne(env, config, w, calls[0]), calls[0].ready, p) ==>
      SentByCall(config, Run(env, config, w, calls[..0]), Run(env, config, w, calls[..0 + 1]), calls[0].ready, p);
  }

  /** Every PATCH of a run was sent by one of its calls, in a round of a node that was ready and
      seen running in that call. */
  lemma {:induction false} RunSends(env: Env, config: seq<Addr>, w: World, calls: seq<Call>)
    requires Undisturbed(env)
    requires forall c :: c in calls ==> IsOrder(c.createOrder, c.ready)
    ensures var w' := Run(env, config, w, calls);
            && w.remote.issued <= w'.remote.issued && Moves(w.remote, w'.remote)
            && forall p :: p in Sent(w.remote, w'.remote) ==> SentInRun(env, config, w, calls, p)
    decreases |calls|
  {
    hide RunOne, Moves, SentInRun, SentByCall;
    if calls == [] {
      MovesStill(w.remote);
      assert Sent(w.remote, w.remote) == [];
    } else {
      var c := calls[0];
      assert c in calls;
      var w1 := RunOne(env, config, w, c);
      OneCallOfRun(env, config, w, c);
      RunSends(env, config, w1, calls[1..]);
      var w2 := Run(env, config, w1, calls[1..]);
      MovesOn(w.remote, w1.remote, w2.remote);
      SentInParts(w.remote, w1.remote, w2.remote);
      forall p | p in Sent(w.remote, w2.remote)
        ensures SentInRun(env, config, w, calls, p)
      {
        if p in Sent(w1.remote, w2.remote) {
          SentLater(env, config, w, calls, p);
        } else {
          SentFirst(env, config, w, calls, p);
        }
      }
    }
  }

  /** The table keeps its shape throughout a run. */
  lemma {:induction false} RunKeepsShape(env: Env, config: seq<Addr>, w: World, calls: seq<Call>)
    requires Undisturbed(env)
    requires forall c :: c in calls ==> IsOrder(c.createOrder, c.ready)
    ensures forall n :: 0 <= n <= |calls| ==> SameShape(w.remote.scp, Run(env, config, w, calls[..n]).remote.scp)
  {
    hide Run, SameShape;
    forall n | 0 <= n <= |calls|
      ensures SameShape(w.remote.scp, Run(env, config, w, calls[..n]).remote.scp)
    {
      assert forall c :: c in calls[..n] ==> c in calls;
      RunSends(env, config, w, calls[..n]);
      ShapeKept(w.remote, Run(env, config, w, calls[..n]).remote);
    }
  }

  ghost predicate UniqueIds(scp: Scp) {
    forall f: Family, i, j :: 0 <= i < j < |scp.Records(f)| && scp.Records(f)[i].id.Some? ==>
      scp.Records(f)[i].id != scp.Records(f)[j].id
  }

  /** The address of a PATCH that a run sent is configured, and is the one the named record
      carries. */
  lemma SentForConfigured(env: Env, config: seq<Addr>, w: World, calls: seq<Call>, p: Patch, i: int)
    requires Undisturbed(env) && UniqueIds(w.remote.scp)
    requires forall c :: c in calls ==> IsOrder(c.createOrder, c.ready)
    requires SentInRun(env, config, w, calls, p)
    requires 0 <= i < |w.remote.scp.Records(p.family)| && w.remote.scp.Records(p.family)[i].id == Some(p.id)
    ensures exists a :: a in config && a.family == p.family && w.remote.scp.Records(p.family)[i].text == Some(TextOf(a))
  {
    hide Run, SameShape;
    var n :| 0 <= n < |calls| &&
             SentByCall(config, Run(env, config, w, calls[..n]), Run(env, config, w, calls[..n + 1]), calls[n].ready, p);
    var v, v' := Run(env, config, w, calls[..n]), Run(env, config, w, calls[..n + 1]);
    var k :| Attempted(config, v.remote.scp, New(v, v'), k, p) && JustSeenRunning(New(v, v'), k, calls[n].ready);
    var a := New(v, v')[k].addr;
    RunKeepsShape(env, config, w, calls);
    SameNames(w.remote.scp, v.remote.scp, p, a);
    var j :| 0 <= j < |w.remote.scp.Records(p.family)| &&
             w.remote.scp.Records(p.family)[j].id == Some(p.id) && w.remote.scp.Records(p.family)[j].text == Some(TextOf(a));
    assert i == j;
  }

  /** Routing confinement over whole runs: from the start of the process and in an undisturbed
      environment, whatever calls fail and however late its tasks finish, an address changes its
      server only if it is configured, and only through a PATCH of the run for its record and
      towards its new server; and the call that sent this PATCH did so in the round of a node of
      its own ready nodes, after the probe of that round showed the node's server, the target,
      running. All other addresses stay. */
  lemma RoutingIsConfined(env: Env, config: seq<Addr>, w: World, calls: seq<Call>)
    requires Undisturbed(env) && UniqueIds(w.remote.scp) && w.remote.issued == []
    requires forall c :: c in calls ==> IsOrder(c.createOrder, c.ready)
    ensures var scp, scp' := w.remote.scp, Run(env, config, w, calls).remote.scp;
            && SameShape(scp, scp')
            && forall f: Family, i :: 0 <= i < |scp.Records(f)| && scp'.Records(f)[i].server != scp.Records(f)[i].server ==>
                 && (exists a :: a in config && a.family == f && scp.Records(f)[i].text == Some(TextOf(a)))
                 && (exists p :: SentInRun(env, config, w, calls, p) && Explains(p, f, scp'.Records(f)[i]))
  {
    hide Run, SentInRun;
    RunSends(env, config, w, calls);
    var w' := Run(env, config, w, calls);
    var scp, scp' := w.remote.scp, w'.remote.scp;
    assert Sent(w.remote, w'.remote) == w'.remote.issued;
    forall f: Family, i | 0 <= i < |scp.Records(f)| && scp'.Records(f)[i].server != scp.Records(f)[i].server
      ensures exists a :: a in config && a.family == f && scp.Records(f)[i].text == Some(TextOf(a))
      ensures exists p :: SentInRun(env, config, w, calls, p) && Explains(p, f, scp'.Records(f)[i])
    {
      assert ExplainedIn(w'.remote.issued, f, scp'.Records(f)[i]);
      var p :| p in w'.remote.issued && Explains(p, f, scp'.Records(f)[i]);
      assert SentInRun(env, config, w, calls, p);
      SentForConfigured(env, config, w, calls, p, i);
    }
  }
}
