/** What the read operations leave alone. */
module WorldLaws {
  import opened Basics
  import opened Stores
  import opened CloudSpec

  lemma {:induction false} ApplyLateKeeps(which: seq<nat>, issued: seq<Patch>, scp: Scp)
    ensures ApplyLate(which, issued, scp).servers == scp.servers
    ensures ApplyLate(which, issued, scp).infos == scp.infos
  {
    if which != [] {
      ApplyLateKeeps(which[1..], issued, if which[0] < |issued| then ApplyPatch(scp, issued[which[0]]) else scp);
    }
  }

  /** Nothing but time passes in a quiet environment. */
  lemma QuietTick(env: Env, r: Remote)
    requires Quiet(env)
    ensures Tick(env, r) == r.(clock := r.clock + 1)
  {
    assert LateOf(env, r.clock) == [];
  }

  /** A read: Kubernetes, the PATCHes sent and, in a quiet environment, SCP are unchanged. */
  ghost predicate ReadOnly(env: Env, w: World, w': World) {
    && w'.remote.kube == w.remote.kube
    && w'.remote.issued == w.remote.issued
    && (Quiet(env) ==> w'.remote.scp == w.remote.scp)
  }

  ghost predicate CacheGrows(w: World, w': World) {
    forall n :: n in w.cache ==> n in w'.cache && w'.cache[n] == w.cache[n]
  }

  lemma LookUpReads(env: Env, w: World, name: string)
    ensures var (w', id) := LookUp(env, w, name);
            && ReadOnly(env, w, w') && CacheGrows(w, w') && w'.log == w.log
            && (id.Ok? ==> name in w'.cache && w'.cache[name] == id.value)
  {
    if Quiet(env) {
      QuietTick(env, w.remote);
    }
  }

  lemma ProbeReads(env: Env, w: World, name: string)
    ensures var (w', info) := Probe(env, w, name);
            && ReadOnly(env, w, w') && CacheGrows(w, w')
            && w'.log == w.log + (if info.Ok? then [Probed(name, info.value)] else [])
  {
    LookUpReads(env, w, name);
    if Quiet(env) {
      QuietTick(env, LookUp(env, w, name).0.remote);
    }
  }

  /** The server whose listing was asked for. */
  ghost function ServerOf(w: World, node: Option<string>): Option<ServerID> {
    if node.None? then None else if node.value in w.cache then Some(w.cache[node.value]) else None
  }

  lemma FailoversReads(env: Env, config: seq<Addr>, w: World, family: Family, node: Option<string>)
    ensures var (w', addrs) := Failovers(env, config, w, family, node);
            && ReadOnly(env, w, w') && CacheGrows(w, w')
            && (node.Some? && addrs.Ok? ==> node.value in w'.cache)
            && w'.log == w.log + (if addrs.Ok? then [Listed(family, ServerOf(w', node), addrs.value)] else [])
  {
    var w1 := if node.Some? then LookUp(env, w, node.value).0 else w;
    if node.Some? {
      LookUpReads(env, w, node.value);
    }
    if Quiet(env) {
      QuietTick(env, w1.remote);
    }
  }
}
