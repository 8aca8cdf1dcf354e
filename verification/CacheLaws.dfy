/** The server-ID cache cannot be told from asking anew each time. */
module CacheLaws {
  import opened Basics
  import opened Stores
  import opened CloudSpec
  import opened WorldLaws

  /** The operations that go through the cache, and what they answer. */
  datatype Op = ServerId(name: string) | Info(name: string) | FailoverList(family: Family, node: Option<string>)

  datatype Answer =
    | IdAnswer(id: Result<ServerID>)
    | InfoAnswer(info: Result<Option<ServerInfo>>)
    | ListAnswer(addrs: Result<seq<Addr>>)

  ghost function Perform(env: Env, config: seq<Addr>, w: World, op: Op): (World, Answer) {
    match op
    case ServerId(name) => var (w', id) := LookUp(env, w, name); (w', IdAnswer(id))
    case Info(name) => var (w', info) := Probe(env, w, name); (w', InfoAnswer(info))
    case FailoverList(family, node) =>
      var (w', addrs) := Failovers(env, config, w, family, node); (w', ListAnswer(addrs))
  }

  ghost function PerformAll(env: Env, config: seq<Addr>, w: World, ops: seq<Op>): (World, seq<Answer>)
    decreases |ops|
  {
    if ops == [] then (w, [])
    else
      var (w1, first) := Perform(env, config, w, ops[0]);
      var (w2, rest) := PerformAll(env, config, w1, ops[1..]);
      (w2, [first] + rest)
  }

  /** The same, forgetting the cache before each operation. */
  ghost function PerformUncached(env: Env, config: seq<Addr>, w: World, ops: seq<Op>): seq<Answer>
    decreases |ops|
  {
    if ops == [] then []
    else
      var (w1, first) := Perform(env, config, w.(cache := map[]), ops[0]);
      [first] + PerformUncached(env, config, w1, ops[1..])
  }

  /** Nobody renames, adds or removes servers; anything else may happen to SCP. */
  ghost predicate StableServers(env: Env) {
    forall t: nat, scp: Scp :: DriftOf(env, t, scp).servers == scp.servers
  }

  /** Every entry is the first exact match, with an ID, in the listing. */
  ghost predicate CacheTrue(w: World) {
    forall n :: n in w.cache ==> FirstMatch(w.remote.scp.servers, n) == Ok(w.cache[n])
  }

  lemma StableTick(env: Env, r: Remote)
    requires StableServers(env)
    ensures Tick(env, r).scp.servers == r.scp.servers
  {
    ApplyLateKeeps(LateOf(env, r.clock), r.issued, r.scp);
  }

  /** The answer an uncached look-up could give: that of the listing, or a failed call. */
  ghost predicate Truthful(servers: seq<Server>, name: string, id: Result<ServerID>) {
    id == FirstMatch(servers, name) || id == Err(CallFailed)
  }

  lemma LookUpIsTruthful(env: Env, w: World, name: string)
    requires StableServers(env) && CacheTrue(w)
    ensures var (w', id) := LookUp(env, w, name);
            && CacheTrue(w') && w'.remote.scp.servers == w.remote.scp.servers
            && Truthful(w.remote.scp.servers, name, id)
  {
    StableTick(env, w.remote);
  }

  /** The node an operation has to look up, if any. */
  ghost function NameOf(op: Op): Option<string> {
    match op
    case ServerId(name) => Some(name)
    case Info(name) => Some(name)
    case FailoverList(_, node) => node
  }

  /** The answer of an operation that knows no cache: the name is resolved by the server listing,
      and the store is asked in this state. */
  ghost function Direct(env: Env, config: seq<Addr>, r: Remote, servers: seq<Server>, op: Op): Answer {
    match op
    case ServerId(name) => IdAnswer(FirstMatch(servers, name))
    case Info(name) =>
      var id := FirstMatch(servers, name);
      InfoAnswer(if id.Err? then Err(id.error) else GetServerInfo(env, r, id.value).1)
    case FailoverList(family, None) => ListAnswer(Filtered(ListFailovers(env, r, family, None).1, family, config))
    case FailoverList(family, Some(name)) =>
      var id := FirstMatch(servers, name);
      ListAnswer(if id.Err? then Err(id.error)
                 else Filtered(ListFailovers(env, r, family, Some(id.value)).1, family, config))
  }

  ghost function Filtered(answer: Result<seq<Record>>, family: Family, config: seq<Addr>): Result<seq<Addr>> {
    if answer.Err? then Err(answer.error) else Select(answer.value, family, config)
  }

  /** The stores when the operation's own request is made, after the look-up if there is one. */
  ghost function Asked(env: Env, w: World, op: Op): Remote {
    if NameOf(op).Some? then LookUp(env, w, NameOf(op).value).0.remote else w.remote
  }

  /** The answer of an operation one of whose calls failed. */
  ghost function Failure(op: Op): Answer {
    match op
    case ServerId(_) => IdAnswer(Err(CallFailed))
    case Info(_) => InfoAnswer(Err(CallFailed))
    case FailoverList(_, _) => ListAnswer(Err(CallFailed))
  }

  /** An uncached answer, or that of a failed call. */
  ghost predicate Honest(env: Env, config: seq<Addr>, w: World, servers: seq<Server>, op: Op, answer: Answer) {
    answer == Failure(op) || answer == Direct(env, config, Asked(env, w, op), servers, op)
  }

  lemma OpKeepsCacheTrue(env: Env, config: seq<Addr>, w: World, op: Op)
    requires StableServers(env) && CacheTrue(w)
    ensures var (w', answer) := Perform(env, config, w, op);
            && CacheTrue(w') && CacheGrows(w, w') && w'.remote.scp.servers == w.remote.scp.servers
            && Honest(env, config, w, w.remote.scp.servers, op, answer)
  {
    if NameOf(op).Some? {
      hide LookUp;
      var name := NameOf(op).value;
      LookUpIsTruthful(env, w, name);
      LookUpReads(env, w, name);
      StableTick(env, LookUp(env, w, name).0.remote);
    } else {
      StableTick(env, w.remote);
    }
  }

  /** The world before the operation at position `i`. */
  ghost function Before(env: Env, config: seq<Addr>, w: World, ops: seq<Op>, i: nat): World
    requires i <= |ops|
  {
    PerformAll(env, config, w, ops[..i]).0
  }

  lemma BeforeLater(env: Env, config: seq<Addr>, w: World, ops: seq<Op>, i: nat)
    requires 0 < i <= |ops|
    ensures Before(env, config, w, ops, i) == Before(env, config, Perform(env, config, w, ops[0]).0, ops[1..], i - 1)
  {
    hide Perform;
    assert ops[..i][1..] == ops[1..][..i - 1];
  }

  /** The operation's own call is made, after the name has been resolved. */
  ghost predicate AsksOnce(op: Op, resolved: bool) {
    !op.ServerId? && resolved
  }

  /** A cached name is resolved without any call and without a change, whatever the environment; a
      name that is not cached costs one call, and enters the cache exactly if that call is
      answered and the listing resolves it. The operation's own call comes on top. */
  lemma CachedCostsNothing(env: Env, config: seq<Addr>, w: World, op: Op)
    ensures var (w', answer) := Perform(env, config, w, op);
            var cached := NameOf(op).None? || NameOf(op).value in w.cache;
            var listed := FirstMatch(Tick(env, w.remote).scp.servers, if NameOf(op).Some? then NameOf(op).value else "");
            var resolved := cached || (FateOf(env, w.remote.clock).Answered? && listed.Ok?);
            && (cached && op.ServerId? ==> w' == w && answer == IdAnswer(Ok(w.cache[op.name])))
            && w'.remote.clock == w.remote.clock + (if cached then 0 else 1) + (if AsksOnce(op, resolved) then 1 else 0)
            && (cached ==> w'.cache == w.cache)
            && (!cached ==> w'.cache == if resolved then w.cache[NameOf(op).value := listed.value] else w.cache)
  {
  }

  /** Over any sequence of operations and faults, as long as the server listing is stable and
      whatever else others do to SCP: no entry is ever overwritten, every entry is and stays the
      listing's own answer, and every ID, detail and failover listing handed out is what an
      operation without a cache would have answered at that moment, or a failed call. */
  lemma {:induction false} CacheStaysTrue(env: Env, config: seq<Addr>, w: World, ops: seq<Op>)
    requires StableServers(env) && CacheTrue(w)
    ensures var (w', answers) := PerformAll(env, config, w, ops);
            && CacheTrue(w') && CacheGrows(w, w') && w'.remote.scp.servers == w.remote.scp.servers
            && |answers| == |ops|
            && (forall i :: 0 <= i < |ops| ==>
                  Honest(env, config, Before(env, config, w, ops, i), w.remote.scp.servers, ops[i], answers[i]))
    decreases |ops|
  {
    hide Perform, Honest, CacheTrue;
    if ops != [] {
      OpKeepsCacheTrue(env, config, w, ops[0]);
      var w1 := Perform(env, config, w, ops[0]).0;
      CacheStaysTrue(env, config, w1, ops[1..]);
      var answers := PerformAll(env, config, w, ops).1;
      forall i | 0 <= i < |ops|
        ensures Honest(env, config, Before(env, config, w, ops, i), w.remote.scp.servers, ops[i], answers[i])
      {
        if i == 0 {
          assert ops[..0] == [];
        } else {
          BeforeLater(env, config, w, ops, i);
          assert answers[i] == PerformAll(env, config, w1, ops[1..]).1[i - 1];
        }
      }
    }
  }

  /** Two worlds that differ only in how much is cached, how late it is and what was noted. */
  ghost predicate SameStores(w: World, v: World) {
    w.remote.scp == v.remote.scp && w.remote.kube == v.remote.kube
  }

  lemma LookUpUncached(env: Env, w: World, v: World, name: string)
    requires Quiet(env) && AllAnswered(env) && SameStores(w, v) && CacheTrue(w) && CacheTrue(v)
    ensures LookUp(env, w, name).1 == LookUp(env, v, name).1 == FirstMatch(w.remote.scp.servers, name)
    ensures SameStores(LookUp(env, w, name).0, LookUp(env, v, name).0)
    ensures SameStores(w, LookUp(env, w, name).0)
    ensures CacheTrue(LookUp(env, w, name).0) && CacheTrue(LookUp(env, v, name).0)
  {
    QuietTick(env, w.remote);
    QuietTick(env, v.remote);
    assert FateOf(env, w.remote.clock) == Answered && FateOf(env, v.remote.clock) == Answered;
  }

  lemma OpUncached(env: Env, config: seq<Addr>, w: World, v: World, op: Op)
    requires Quiet(env) && AllAnswered(env) && SameStores(w, v) && CacheTrue(w) && CacheTrue(v)
    ensures Perform(env, config, w, op).1 == Perform(env, config, v, op).1
    ensures SameStores(Perform(env, config, w, op).0, Perform(env, config, v, op).0)
    ensures CacheTrue(Perform(env, config, w, op).0) && CacheTrue(Perform(env, config, v, op).0)
  {
    if NameOf(op).Some? {
      var name := NameOf(op).value;
      LookUpUncached(env, w, v, name);
      var r, r' := LookUp(env, w, name).0.remote, LookUp(env, v, name).0.remote;
      QuietTick(env, r);
      QuietTick(env, r');
      assert FateOf(env, r.clock) == Answered && FateOf(env, r'.clock) == Answered;
    } else {
      QuietTick(env, w.remote);
      QuietTick(env, v.remote);
      assert FateOf(env, w.remote.clock) == Answered && FateOf(env, v.remote.clock) == Answered;
    }
  }

  /** Cache transparency: when every call is answered and nobody else changes SCP, any
      sequence of operations answers exactly as it would without a cache. */
  lemma {:induction false} CacheIsTransparent(env: Env, config: seq<Addr>, w: World, v: World, ops: seq<Op>)
    requires Quiet(env) && AllAnswered(env) && SameStores(w, v) && CacheTrue(w)
    ensures PerformAll(env, config, w, ops).1 == PerformUncached(env, config, v, ops)
    decreases |ops|
  {
    if ops != [] {
      OpUncached(env, config, w, v.(cache := map[]), ops[0]);
      CacheIsTransparent(env, config, Perform(env, config, w, ops[0]).0,
                         Perform(env, config, v.(cache := map[]), ops[0]).0, ops[1..]);
    }
  }
}
