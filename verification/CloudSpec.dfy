/** What the operations of nc/cloud.go compute, as functions from world to world. */
module CloudSpec {
  import opened Basics
  import opened Stores
  import TaskWait

  /** What the process observed and did, in order. */
  datatype Event =
    | Listed(family: Family, server: Option<ServerID>, addrs: seq<Addr>)
    | Probed(node: string, info: Option<ServerInfo>)
    | Routed(addr: Addr, target: ServerID, ok: bool)

  /** Both stores, the server-ID cache and the history of the process. */
  datatype World = World(remote: Remote, cache: map<string, ServerID>, log: seq<Event>)

  ghost function Note(w: World, e: Event): World {
    w.(log := w.log + [e])
  }

  /** The scan over a server listing for an exact name with an ID. */
  ghost function FirstMatch(servers: seq<Server>, name: string): Result<ServerID> {
    if servers == [] then Err(UnknownServer)
    else if servers[0].name.None? then Err(NilPointer)
    else if servers[0].name.value == name && servers[0].id.Some? then Ok(servers[0].id.value)
    else FirstMatch(servers[1..], name)
  }

  ghost function LookUp(env: Env, w: World, name: string): (World, Result<ServerID>) {
    if name in w.cache then (w, Ok(w.cache[name]))
    else
      var (r, answer) := ListServers(env, w.remote);
      var found := if answer.Ok? then FirstMatch(answer.value, name) else Err(answer.error);
      (w.(remote := r, cache := if found.Ok? then w.cache[name := found.value] else w.cache), found)
  }

  ghost function Probe(env: Env, w: World, name: string): (World, Result<Option<ServerInfo>>) {
    var (w1, id) := LookUp(env, w, name);
    if id.Err? then (w1, Err(id.error))
    else
      var (r, info) := GetServerInfo(env, w1.remote, id.value);
      var w2 := w1.(remote := r);
      (if info.Ok? then Note(w2, Probed(name, info.value)) else w2, info)
  }

  /** The configured addresses of one family in a listing, in listing order, provided every
      record parses. */
  ghost function Select(records: seq<Record>, family: Family, config: seq<Addr>): Result<seq<Addr>> {
    if records == [] then Ok([])
    else if records[0].text.None? then Err(NilPointer)
    else
      var addr := Parse(records[0].text.value);
      if addr.None? then Err(BadAddress)
      else
        var rest := Select(records[1..], family, config);
        if rest.Err? then rest
        else if addr.value.family == family && addr.value in config then Ok([addr.value] + rest.value)
        else rest
  }

  ghost function Failovers(env: Env, config: seq<Addr>, w: World, family: Family, node: Option<string>)
    : (World, Result<seq<Addr>>)
  {
    var (w1, id) := if node.Some? then LookUp(env, w, node.value) else (w, Ok(0));
    if id.Err? then (w1, Err(id.error))
    else
      var server := if node.Some? then Some(id.value) else None;
      var (r, answer) := ListFailovers(env, w1.remote, family, server);
      var w2 := w1.(remote := r);
      if answer.Err? then (w2, Err(answer.error))
      else
        var addrs := Select(answer.value, family, config);
        (if addrs.Ok? then Note(w2, Listed(family, server, addrs.value)) else w2, addrs)
  }

  /** The ID of the first complete record carrying exactly this text. */
  ghost function FirstComplete(records: seq<Record>, text: Text): Option<int> {
    if records == [] then None
    else if records[0].id.Some? && records[0].text == Some(text) then records[0].id
    else FirstComplete(records[1..], text)
  }

  /** The answer to a routing PATCH, after the wait for its task if there is one to wait for. */
  ghost function Await(env: Env, t: nat, status: PatchStatus): Result<()> {
    match status
    case NeverArrived => Err(CallFailed)
    case NoAnswer => Err(CallFailed)
    case NotAccepted => Err(CallFailed)
    case AcceptedWithoutTask => Ok(())
    case AcceptedWithTask => TaskWait.Outcome(RoundsOf(env, t))
  }

  /** The body of routeServerIP, under the target's lock. */
  ghost function RouteUnderLock(env: Env, r: Remote, addr: Addr, target: ServerID): (Remote, Result<()>) {
    var (r1, answer) := ListFailovers(env, r, addr.family, None);
    if answer.Err? then (r1, Err(answer.error))
    else
      var id := FirstComplete(answer.value, TextOf(addr));
      if id.None? then (r1, Err(AddressNotFound))
      else
        var (r2, status) := PatchFailover(env, r1, Patch(addr.family, id.value, target));
        (r2, Await(env, r1.clock, status))
  }

  ghost function Route(env: Env, w: World, addr: Addr, target: ServerID): (World, Result<()>) {
    var (r, answer) := RouteUnderLock(env, w.remote, addr, target);
    (Note(w.(remote := r), Routed(addr, target, answer.Ok?)), answer)
  }
}
