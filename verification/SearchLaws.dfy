/** Deciding by what SCP lists: the search for a node, and whether a balancer stands. */
module SearchLaws {
  import opened Basics
  import opened Stores
  import opened CloudSpec
  import opened BalancerSpec
  import opened EventLaws
  import opened WorldLaws
  import SelectLaws

  /******* In a quiet environment the answers are those of the tables *******/

  ghost function IdOf(w: World, name: string): Result<ServerID> {
    if name in w.cache then Ok(w.cache[name]) else FirstMatch(w.remote.scp.servers, name)
  }

  /** The configured addresses of a family that SCP has on a node's server. */
  ghost function HostedNow(config: seq<Addr>, w: World, node: string, family: Family): Result<seq<Addr>> {
    var id := IdOf(w, node);
    if id.Err? then Err(id.error) else Select(OnServer(w.remote.scp.Records(family), id.value), family, config)
  }

  /** The same SCP, and every name resolves to the same server. */
  ghost predicate SameView(w: World, w': World) {
    && w'.remote.scp == w.remote.scp
    && forall n :: IdOf(w', n) == IdOf(w, n)
  }

  lemma QuietLookUp(env: Env, w: World, name: string)
    requires Quiet(env)
    ensures var (w', id) := LookUp(env, w, name);
            SameView(w, w') && (id == IdOf(w, name) || id == Err(CallFailed))
  {
    QuietTick(env, w.remote);
  }

  lemma QuietFailovers(env: Env, config: seq<Addr>, w: World, family: Family, node: string)
    requires Quiet(env)
    ensures var (w', addrs) := Failovers(env, config, w, family, Some(node));
            SameView(w, w') && (addrs == HostedNow(config, w, node, family) || addrs == Err(CallFailed))
  {
    QuietLookUp(env, w, node);
    QuietTick(env, LookUp(env, w, node).0.remote);
  }

  /** The decision of one family, whether or not it is asked for. */
  ghost predicate TrueListing(config: seq<Addr>, w: World, service: Service, family: Family, node: string, addrs: Result<seq<Addr>>) {
    if family in service.families then addrs == HostedNow(config, w, node, family) || addrs == Err(CallFailed)
    else addrs == Ok([])
  }

  lemma HostedReads(env: Env, config: seq<Addr>, w: World, service: Service, family: Family, node: string)
    ensures var (w', addrs) := Hosted(env, config, w, service, family, node);
            && ReadOnly(env, w, w') && CacheGrows(w, w')
            && (Quiet(env) ==> SameView(w, w') && TrueListing(config, w, service, family, node, addrs))
            && (addrs.Ok? ==> forall a :: a in addrs.value ==> a.family == family && a in config)
            && (family in service.families && addrs.Ok? ==> node in w'.cache)
            && (family !in service.families ==> addrs == Ok([]))
            && w'.log == w.log + (if family in service.families && addrs.Ok?
                                  then [Listed(family, ServerOf(w', Some(node)), addrs.value)] else [])
  {
    hide Failovers;
    if family in service.families {
      FailoversReads(env, config, w, family, Some(node));
      SelectLaws.FailoversOfFamily(env, config, w, family, Some(node));
      if Quiet(env) {
        QuietFailovers(env, config, w, family, node);
      }
    }
  }

  /******* The search *******/

  /** Listings of single servers only, and no routing. */
  ghost predicate OnlySearched(events: seq<Event>) {
    forall e :: e in events ==> e.Listed? && e.server.Some?
  }

  /** A stretch of listings of single servers. */
  ghost predicate Searched(env: Env, w: World, w': World) {
    && ReadOnly(env, w, w') && CacheGrows(w, w') && w.log <= w'.log && OnlySearched(New(w, w'))
    && (Quiet(env) ==> SameView(w, w'))
  }

  lemma SearchedOn(env: Env, w: World, w1: World, w2: World)
    requires Searched(env, w, w1) && Searched(env, w1, w2)
    ensures Searched(env, w, w2)
  {
    hide IdOf;
    NewChains(w, w1, w2);
    if Quiet(env) {
      assert forall n :: IdOf(w2, n) == IdOf(w1, n);
    }
  }

  lemma HostedSearches(env: Env, config: seq<Addr>, w: World, service: Service, family: Family, node: string)
    ensures Searched(env, w, Hosted(env, config, w, service, family, node).0)
  {
    hide Hosted, TrueListing, SameView, ReadOnly, CacheGrows;
    HostedReads(env, config, w, service, family, node);
  }

  /** Each wanted address is configured and was listed first on the chosen node's server. */
  ghost predicate ListedChoice(config: seq<Addr>, service: Service, choice: Choice, events: seq<Event>, server: ServerID) {
    forall f :: if f in service.families
                then choice.Of(f).Some? && choice.Of(f).value.family == f && choice.Of(f).value in config &&
                     exists addrs :: Listed(f, Some(server), addrs) in events && addrs != [] && choice.Of(f) == Some(addrs[0])
                else choice.Of(f).None?
  }

  ghost predicate SoundlyFound(config: seq<Addr>, service: Service, choice: Choice, events: seq<Event>, cache: map<string, ServerID>) {
    choice.node in cache && ListedChoice(config, service, choice, events, cache[choice.node])
  }

  /** Some wanted family has no configured address on the node's server. */
  ghost predicate Lacking(config: seq<Addr>, w: World, service: Service, node: string) {
    exists f :: f in service.families && HostedNow(config, w, node, f) == Ok([])
  }

  lemma SearchNodeReads(env: Env, config: seq<Addr>, w: World, service: Service, node: string)
    ensures var (w', found) := SearchNode(env, config, w, service, node);
            Searched(env, w, w') && (found.Ok? ==> found.value.node == node)
  {
    hide Hosted, Searched;
    HostedSearches(env, config, w, service, IPv4, node);
    var (w1, v4) := Hosted(env, config, w, service, IPv4, node);
    HostedSearches(env, config, w1, service, IPv6, node);
    SearchedOn(env, w, w1, Hosted(env, config, w1, service, IPv6, node).0);
  }

  lemma SearchNodeSound(env: Env, config: seq<Addr>, w: World, service: Service, node: string)
    requires SearchNode(env, config, w, service, node).1.Ok?
    ensures var (w', found) := SearchNode(env, config, w, service, node);
            && w.log <= w'.log
            && (Complete(service, found.value) ==> SoundlyFound(config, service, found.value, New(w, w'), w'.cache))
  {
    hide Hosted, ListedChoice, SoundlyFound, Complete, TrueListing, SameView;
    HostedReads(env, config, w, service, IPv4, node);
    var (w1, v4) := Hosted(env, config, w, service, IPv4, node);
    HostedReads(env, config, w1, service, IPv6, node);
    var (w2, v6) := Hosted(env, config, w1, service, IPv6, node);
    NewChains(w, w1, w2);
    assert service.families != [] ==>
        service.families[0] in service.families && (service.families[0] == IPv4 || service.families[0] == IPv6);
    FoundOutcome(config, service, node, v4.value, v6.value, New(w, w2), w2.cache);
  }

  lemma SearchNodeLacks(env: Env, config: seq<Addr>, w: World, service: Service, node: string)
    requires Quiet(env) && service.families != []
    requires SearchNode(env, config, w, service, node).1.Ok?
    ensures !Complete(service, SearchNode(env, config, w, service, node).1.value) ==> Lacking(config, w, service, node)
  {
    hide Hosted, HostedNow, Lacking, ReadOnly, CacheGrows;
    HostedReads(env, config, w, service, IPv4, node);
    var (w1, v4) := Hosted(env, config, w, service, IPv4, node);
    HostedReads(env, config, w1, service, IPv6, node);
    var (w2, v6) := Hosted(env, config, w1, service, IPv6, node);
    SameHosted(config, w, w1, node);
    var choice := Choice(node, First(v4.value), First(v6.value));
    if !Complete(service, choice) {
      LackingFamily(config, w, service, choice, v4.value, v6.value);
    }
  }

  lemma SameHosted(config: seq<Addr>, w: World, w': World, node: string)
    requires SameView(w, w')
    ensures forall f :: HostedNow(config, w', node, f) == HostedNow(config, w, node, f)
  {
    assert IdOf(w', node) == IdOf(w, node);
  }

  lemma LackingFamily(config: seq<Addr>, w: World, service: Service, choice: Choice, v4: seq<Addr>, v6: seq<Addr>)
    requires service.families != []
    requires choice.v4 == First(v4) && choice.v6 == First(v6) && !Complete(service, choice)
    requires TrueListing(config, w, service, IPv4, choice.node, Ok(v4))
    requires TrueListing(config, w, service, IPv6, choice.node, Ok(v6))
    ensures Lacking(config, w, service, choice.node)
  {
    assert service.families[0] in service.families && (service.families[0] == IPv4 || service.families[0] == IPv6);
    if IPv4 in service.families && choice.v4.None? {
      assert HostedNow(config, w, choice.node, IPv4) == Ok([]);
    } else {
      assert IPv6 in service.families && HostedNow(config, w, choice.node, IPv6) == Ok([]);
    }
  }

  lemma FoundOutcome(config: seq<Addr>, service: Service, node: string, v4: seq<Addr>, v6: seq<Addr>, events: seq<Event>, cache: map<string, ServerID>)
    requires forall a :: a in v4 ==> a.family.IPv4? && a in config
    requires forall a :: a in v6 ==> a.family.IPv6? && a in config
    requires service.families != [] ==> node in cache
    requires IPv4 in service.families ==> Listed(IPv4, Some(cache[node]), v4) in events
    requires IPv6 in service.families ==> Listed(IPv6, Some(cache[node]), v6) in events
    requires IPv4 !in service.families ==> v4 == []
    requires IPv6 !in service.families ==> v6 == []
    ensures var choice := Choice(node, First(v4), First(v6));
            Complete(service, choice) ==> SoundlyFound(config, service, choice, events, cache)
  {
    var choice := Choice(node, First(v4), First(v6));
    if Complete(service, choice) {
      forall f
        ensures if f in service.families
                then choice.Of(f).Some? && choice.Of(f).value.family == f && choice.Of(f).value in config &&
                     exists addrs :: Listed(f, Some(cache[choice.node]), addrs) in events && addrs != [] && choice.Of(f) == Some(addrs[0])
                else choice.Of(f).None?
      {
        match f {
          case IPv4 =>
          case IPv6 =>
        }
      }
    }
  }

  /** The whole search only reads. What it finds is sound; if it comes back with nothing in a
      quiet environment, every node lacked an address of some wanted family from the start. */
  lemma {:induction false} SearchEvents(env: Env, config: seq<Addr>, w: World, service: Service, order: seq<string>)
    ensures var (w', found) := Search(env, config, w, service, order);
            && ReadOnly(env, w, w') && CacheGrows(w, w') && w.log <= w'.log && OnlySearched(New(w, w'))
            && (Quiet(env) ==> SameView(w, w'))
            && (found.Ok? && found.value.Some? ==>
                  && found.value.value.node in order
                  && Complete(service, found.value.value)
                  && SoundlyFound(config, service, found.value.value, New(w, w'), w'.cache))
            && (Quiet(env) && found == Ok(None) && service.families != [] ==>
                  forall n :: n in order ==> Lacking(config, w, service, n))
    decreases |order|
  {
    hide SearchNode, Lacking, HostedNow, ListedChoice;
    if order == [] {
      assert New(w, w) == [];
    } else {
      SearchNodeReads(env, config, w, service, order[0]);
      var (w1, offer) := SearchNode(env, config, w, service, order[0]);
      if offer.Ok? {
        SearchNodeSound(env, config, w, service, order[0]);
        if Quiet(env) && service.families != [] {
          SearchNodeLacks(env, config, w, service, order[0]);
        }
      }
      if offer.Ok? && !Complete(service, offer.value) {
        SearchEvents(env, config, w1, service, order[1..]);
        var (w2, found) := Search(env, config, w1, service, order[1..]);
        NewChains(w, w1, w2);
        if found.Ok? && found.value.Some? {
          FoundLater(config, service, found.value.value, New(w, w1), New(w1, w2), w2.cache);
        }
        if Quiet(env) {
          SameLacking(config, w, w1, service);
          assert forall n :: n in order ==> n == order[0] || n in order[1..];
        }
      }
    }
  }

  lemma SameLacking(config: seq<Addr>, w: World, w': World, service: Service)
    requires SameView(w, w')
    ensures forall n :: Lacking(config, w', service, n) <==> Lacking(config, w, service, n)
  {
    forall n
      ensures Lacking(config, w', service, n) <==> Lacking(config, w, service, n)
    {
      SameHosted(config, w, w', n);
    }
  }

  lemma FoundLater(config: seq<Addr>, service: Service, choice: Choice, these: seq<Event>, those: seq<Event>, cache: map<string, ServerID>)
    requires SoundlyFound(config, service, choice, those, cache)
    ensures SoundlyFound(config, service, choice, these + those, cache)
  {
    forall f | f in service.families
      ensures choice.Of(f).Some? && choice.Of(f).value.family == f && choice.Of(f).value in config
      ensures exists addrs :: Listed(f, Some(cache[choice.node]), addrs) in these + those && addrs != [] && choice.Of(f) == Some(addrs[0])
    {
      var addrs :| Listed(f, Some(cache[choice.node]), addrs) in those && addrs != [] && choice.Of(f) == Some(addrs[0]);
      assert Listed(f, Some(cache[choice.node]), addrs) in these + those;
    }
  }

  /******* The decision of GetLoadBalancer *******/

  /** Each ingress text is the canonical text of a configured address of a wanted family on the
      node's server, and each wanted family has one. */
  ghost predicate Serves(config: seq<Addr>, w: World, service: Service, node: string) {
    && (forall t :: t in service.ingress ==> exists f :: f in service.families && ServedBy(config, w, node, f, t))
    && (forall f :: f in service.families ==> exists t :: t in service.ingress && ServedBy(config, w, node, f, t))
  }

  ghost predicate ServedBy(config: seq<Addr>, w: World, node: string, family: Family, text: Text) {
    var hosted := HostedNow(config, w, node, family);
    hosted.Ok? && text in Texts(hosted.value)
  }

  lemma ExistsReads(env: Env, config: seq<Addr>, w: World, service: Service)
    ensures Searched(env, w, Exists(env, config, w, service).0)
  {
    if service.nodeLabel.None? {
      assert New(w, w) == [];
    } else {
      hide Hosted, Searched, Stands, AllParse;
      var node := service.nodeLabel.value;
      HostedSearches(env, config, w, service, IPv4, node);
      var (w1, v4) := Hosted(env, config, w, service, IPv4, node);
      HostedSearches(env, config, w1, service, IPv6, node);
      SearchedOn(env, w, w1, Hosted(env, config, w1, service, IPv6, node).0);
    }
  }

  /** In a quiet environment and without errors, the balancer is reported to exist exactly if
      the service carries a label and is served by the labelled node. */
  lemma ExistsIffServed(env: Env, config: seq<Addr>, w: World, service: Service)
    requires Quiet(env)
    requires Exists(env, config, w, service).1.Ok?
    ensures Exists(env, config, w, service).1.value <==>
            service.nodeLabel.Some? && Serves(config, w, service, service.nodeLabel.value)
  {
    hide Hosted, HostedNow, AllParse, Stands, Serves, ReadOnly, CacheGrows, SameView;
    if service.nodeLabel.Some? {
      var node := service.nodeLabel.value;
      HostedReads(env, config, w, service, IPv4, node);
      var (w1, v4) := Hosted(env, config, w, service, IPv4, node);
      HostedReads(env, config, w1, service, IPv6, node);
      var (w2, v6) := Hosted(env, config, w1, service, IPv6, node);
      SameHosted(config, w, w1, node);
      if IPv4 in service.families && v4 == Ok([]) {
        ServesNothing(config, w, service, node, IPv4);
      } else if IPv6 in service.families && v6 == Ok([]) {
        ServesNothing(config, w, service, node, IPv6);
      } else {
        StandsIffServes(config, w, service, node, v4.value, v6.value);
      }
    }
  }

  lemma ServesNothing(config: seq<Addr>, w: World, service: Service, node: string, family: Family)
    requires family in service.families && HostedNow(config, w, node, family) == Ok([])
    ensures !Serves(config, w, service, node)
  {
    hide HostedNow;
    assert forall t :: !ServedBy(config, w, node, family, t);
  }

  lemma StandsIffServes(config: seq<Addr>, w: World, service: Service, node: string, v4: seq<Addr>, v6: seq<Addr>)
    requires TrueListing(config, w, service, IPv4, node, Ok(v4))
    requires TrueListing(config, w, service, IPv6, node, Ok(v6))
    ensures Stands(service, v4, v6) <==> Serves(config, w, service, node)
  {
    hide HostedNow, Texts;
    forall t
      ensures t in Texts(v4) <==> IPv4 in service.families && ServedBy(config, w, node, IPv4, t)
      ensures t in Texts(v6) <==> IPv6 in service.families && ServedBy(config, w, node, IPv6, t)
    {
    }
    StandsByFamily(config, w, service, node, Texts(v4), Texts(v6));
  }

  lemma StandsByFamily(config: seq<Addr>, w: World, service: Service, node: string, v4: seq<Text>, v6: seq<Text>)
    requires forall t :: t in v4 <==> IPv4 in service.families && ServedBy(config, w, node, IPv4, t)
    requires forall t :: t in v6 <==> IPv6 in service.families && ServedBy(config, w, node, IPv6, t)
    ensures Serves(config, w, service, node) <==>
            && (forall t :: t in service.ingress ==> t in v4 || t in v6)
            && (IPv4 in service.families ==> exists t :: t in service.ingress && t in v4)
            && (IPv6 in service.families ==> exists t :: t in service.ingress && t in v6)
  {
    EachIsServed(config, w, service, node, v4, v6);
    EachIsCovered(config, w, service, node, v4, v6);
  }

  lemma EachIsServed(config: seq<Addr>, w: World, service: Service, node: string, v4: seq<Text>, v6: seq<Text>)
    requires forall t :: t in v4 <==> IPv4 in service.families && ServedBy(config, w, node, IPv4, t)
    requires forall t :: t in v6 <==> IPv6 in service.families && ServedBy(config, w, node, IPv6, t)
    ensures (forall t :: t in service.ingress ==> exists f :: f in service.families && ServedBy(config, w, node, f, t)) <==>
            (forall t :: t in service.ingress ==> t in v4 || t in v6)
  {
    hide ServedBy;
    forall t
      ensures (exists f :: f in service.families && ServedBy(config, w, node, f, t)) <==> t in v4 || t in v6
    {
      if f :| f in service.families && ServedBy(config, w, node, f, t) {
        assert f == IPv4 || f == IPv6;
      }
    }
  }

  lemma EachIsCovered(config: seq<Addr>, w: World, service: Service, node: string, v4: seq<Text>, v6: seq<Text>)
    requires forall t :: t in v4 <==> IPv4 in service.families && ServedBy(config, w, node, IPv4, t)
    requires forall t :: t in v6 <==> IPv6 in service.families && ServedBy(config, w, node, IPv6, t)
    ensures (forall f :: f in service.families ==> exists t :: t in service.ingress && ServedBy(config, w, node, f, t)) <==>
            && (IPv4 in service.families ==> exists t :: t in service.ingress && t in v4)
            && (IPv6 in service.families ==> exists t :: t in service.ingress && t in v6)
  {
    hide ServedBy;
    CoveredBy(config, w, service, node, IPv4, v4);
    CoveredBy(config, w, service, node, IPv6, v6);
    assert forall f :: f in service.families ==> f == IPv4 || f == IPv6;
  }

  lemma CoveredBy(config: seq<Addr>, w: World, service: Service, node: string, family: Family, texts: seq<Text>)
    requires forall t :: t in texts <==> family in service.families && ServedBy(config, w, node, family, t)
    ensures family in service.families ==>
              ((exists t :: t in service.ingress && ServedBy(config, w, node, family, t)) <==>
               (exists t :: t in service.ingress && t in texts))
  {
    hide ServedBy;
  }
}
