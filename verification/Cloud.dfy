/** The cloud object of nc/cloud.go and nc/labels.go, method by method. */
module Cloud {
  import opened Basics
  import opened Stores
  import CloudSpec
  import LabelSpec
  import TaskWait

  /** The API clients: every call reads or changes the remote stores under the environment. */
  class Api {
    const env: Env
    var remote: Remote

    constructor (env: Env, remote: Remote)
      ensures this.env == env && this.remote == remote
    {
      this.env, this.remote := env, remote;
    }

    method ListFailovers(family: Family, server: Option<ServerID>) returns (answer: Result<seq<Record>>)
      modifies this
      ensures (remote, answer) == Stores.ListFailovers(env, old(remote), family, server)
    {
      var (r, a) := Stores.ListFailovers(env, remote, family, server);
      remote, answer := r, a;
    }

    method ListServers() returns (answer: Result<seq<Server>>)
      modifies this
      ensures (remote, answer) == Stores.ListServers(env, old(remote))
    {
      var (r, a) := Stores.ListServers(env, remote);
      remote, answer := r, a;
    }

    method GetServerInfo(id: ServerID) returns (answer: Result<Option<ServerInfo>>)
      modifies this
      ensures (remote, answer) == Stores.GetServerInfo(env, old(remote), id)
    {
      var (r, a) := Stores.GetServerInfo(env, remote, id);
      remote, answer := r, a;
    }

    /** Besides the status, hands out the poll rounds of the task the PATCH may have started. */
    method PatchFailover(p: Patch) returns (status: PatchStatus, rounds: TaskWait.Stream)
      modifies this
      ensures (remote, status) == Stores.PatchFailover(env, old(remote), p)
      ensures rounds == RoundsOf(env, old(remote).clock)
    {
      rounds := RoundsOf(env, remote.clock);
      var (r, a) := Stores.PatchFailover(env, remote, p);
      remote, status := r, a;
    }

    method PatchService(before: Service, after: Service) returns (answer: Result<()>)
      modifies this
      ensures (remote, answer) == Stores.PatchService(env, old(remote), before, after)
    {
      var (r, a) := Stores.PatchService(env, remote, before, after);
      remote, answer := r, a;
    }

    method ListMarkedNodes(labelName: string) returns (answer: Result<seq<string>>)
      modifies this
      ensures (remote, answer) == Stores.ListMarkedNodes(env, old(remote), labelName)
    {
      var (r, a) := Stores.ListMarkedNodes(env, remote, labelName);
      remote, answer := r, a;
    }

    method LabelNode(node: string, labelName: string, value: string) returns (written: bool)
      modifies this
      ensures (remote, written) == Stores.LabelNode(env, old(remote), node, labelName, value)
    {
      var (r, a) := Stores.LabelNode(env, remote, node, labelName, value);
      remote, written := r, a;
    }

    method ListServices(node: string) returns (answer: Result<seq<Service>>)
      modifies this
      ensures (remote, answer) == Stores.ListServices(env, old(remote), node)
    {
      var (r, a) := Stores.ListServices(env, remote, node);
      remote, answer := r, a;
    }
  }

  /** What a filter loop has collected so far, followed by what it still has to. */
  ghost function After(collected: seq<Addr>, rest: Result<seq<Addr>>): (all: Result<seq<Addr>>)
    ensures collected == [] ==> all == rest
  {
    if rest.Err? then rest
    else
      assert [] + rest.value == rest.value;
      Ok(collected + rest.value)
  }

  lemma SelectStep(records: seq<Record>, family: Family, config: seq<Addr>, collected: seq<Addr>)
    requires records != [] && records[0].text.Some? && Parse(records[0].text.value).Some?
    ensures var addr := Parse(records[0].text.value).value;
            After(collected, CloudSpec.Select(records, family, config)) ==
            After(if addr.family == family && addr in config then collected + [addr] else collected,
                  CloudSpec.Select(records[1..], family, config))
  {
    var rest := CloudSpec.Select(records[1..], family, config);
    if rest.Ok? {
      var addr := Parse(records[0].text.value).value;
      assert collected + ([addr] + rest.value) == (collected + [addr]) + rest.value;
    }
  }

  /** No lock is held that was not held before, and no stored lock has gone. */
  ghost predicate LetsGo(before: map<ServerID, bool>, after: map<ServerID, bool>) {
    && (forall id :: id in before ==> id in after)
    && (forall id :: id in after && after[id] ==> id in before && before[id])
  }

  class Cloud {
    const api: Api
    const config: seq<Addr>
    var server: map<string, ServerID>
    var serverLocks: map<ServerID, bool>   // by server ID: its mutex, and whether it is held
    ghost var log: seq<CloudSpec.Event>

    constructor (api: Api, config: seq<Addr>)
      ensures this.api == api && this.config == config
      ensures server == map[] && serverLocks == map[] && log == []
    {
      this.api, this.config := api, config;
      server, serverLocks, log := map[], map[], [];
    }

    ghost function World(): CloudSpec.World
      reads this, api
    {
      CloudSpec.World(api.remote, server, log)
    }

    /******* nc/cloud.go *******/

    method GetServerID(name: string) returns (id: Result<ServerID>)
      modifies this`server, api
      ensures (World(), id) == CloudSpec.LookUp(api.env, old(World()), name)
    {
      if name in server {
        return Ok(server[name]);
      }
      var answer := api.ListServers();
      if answer.Err? {
        return Err(answer.error);
      }
      var servers := answer.value;
      var i := 0;
      while i < |servers|
        invariant 0 <= i <= |servers|
        invariant CloudSpec.FirstMatch(servers[i..], name) == CloudSpec.FirstMatch(servers, name)
      {
        assert servers[i..][1..] == servers[i + 1..];
        if servers[i].name.None? {
          return Err(NilPointer);
        }
        if servers[i].name.value == name && servers[i].id.Some? {
          server := server[name := servers[i].id.value];
          return Ok(server[name]);
        }
        i := i + 1;
      }
      return Err(UnknownServer);
    }

    method GetServer(name: string) returns (info: Result<Option<ServerInfo>>)
      modifies this`server, this`log, api
      ensures (World(), info) == CloudSpec.Probe(api.env, old(World()), name)
    {
      var id := GetServerID(name);
      if id.Err? {
        return Err(id.error);
      }
      info := api.GetServerInfo(id.value);
      if info.Ok? {
        log := log + [CloudSpec.Probed(name, info.value)];
      }
    }

    /** getFailoverIPv4s and getFailoverIPv6s, by family. */
    method GetFailoverIPs(family: Family, node: Option<string>) returns (addrs: Result<seq<Addr>>)
      modifies this`server, this`log, api
      ensures (World(), addrs) == CloudSpec.Failovers(api.env, config, old(World()), family, node)
    {
      var serverId := None;
      if node.Some? {
        var id := GetServerID(node.value);
        if id.Err? {
          return Err(id.error);
        }
        serverId := Some(id.value);
      }
      var answer := api.ListFailovers(family, serverId);
      if answer.Err? {
        return Err(answer.error);
      }
      addrs := ConfiguredOnly(answer.value, family);
      if addrs.Ok? {
        log := log + [CloudSpec.Listed(family, serverId, addrs.value)];
      }
    }

    /** The filter loop of the two listings. */
    method ConfiguredOnly(records: seq<Record>, family: Family) returns (addrs: Result<seq<Addr>>)
      ensures addrs == CloudSpec.Select(records, family, config)
    {
      var failovers: seq<Addr> := [];
      var i := 0;
      assert records[0..] == records;
      while i < |records|
        invariant 0 <= i <= |records|
        invariant After(failovers, CloudSpec.Select(records[i..], family, config)) == CloudSpec.Select(records, family, config)
      {
        assert records[i..][0] == records[i] && records[i..][1..] == records[i + 1..];
        if records[i].text.None? {
          return Err(NilPointer);
        }
        var addr := Parse(records[i].text.value);
        if addr.None? {
          return Err(BadAddress);
        }
        SelectStep(records[i..], family, config, failovers);
        if addr.value.family == family && addr.value in config {
          failovers := failovers + [addr.value];
        }
        i := i + 1;
      }
      assert failovers + [] == failovers;
      return Ok(failovers);
    }

    /** LoadOrStore, then Lock. If another worker holds the lock, the call waits until it is let go
        and returns with the lock held for this one; how that plays out between workers is the
        subject of the lock protocol. */
    method LockServer(id: ServerID)
      modifies this`serverLocks
      ensures serverLocks == old(serverLocks)[id := true]
    {
      if id !in serverLocks {
        serverLocks := serverLocks[id := false];
      }
      serverLocks := serverLocks[id := true];
    }

    method UnlockServer(id: ServerID)
      requires id in serverLocks && serverLocks[id]
      modifies this`serverLocks
      ensures serverLocks == old(serverLocks)[id := false]
    {
      serverLocks := serverLocks[id := false];
    }

    /** Every path out of the critical section releases the target's lock, and no lock once
        stored is ever replaced by another. */
    method RouteServerIP(addr: Addr, target: ServerID) returns (answer: Result<()>)
      modifies this`serverLocks, this`log, api
      ensures (World(), answer) == CloudSpec.Route(api.env, old(World()), addr, target)
      ensures serverLocks == old(serverLocks)[target := false]
    {
      LockServer(target);
      answer := RouteLocked(addr, target);
      UnlockServer(target);
      log := log + [CloudSpec.Routed(addr, target, answer.Ok?)];
    }

    method RouteLocked(addr: Addr, target: ServerID) returns (answer: Result<()>)
      requires target in serverLocks && serverLocks[target]
      modifies api
      ensures (api.remote, answer) == CloudSpec.RouteUnderLock(api.env, old(api.remote), addr, target)
    {
      var listing := api.ListFailovers(addr.family, None);
      if listing.Err? {
        return Err(listing.error);
      }
      var records := listing.value;
      var i := 0;
      while i < |records|
        invariant 0 <= i <= |records|
        invariant CloudSpec.FirstComplete(records[i..], TextOf(addr)) == CloudSpec.FirstComplete(records, TextOf(addr))
        invariant (api.remote, listing) == Stores.ListFailovers(api.env, old(api.remote), addr.family, None)
      {
        assert records[i..][1..] == records[i + 1..];
        if records[i].id.None? || records[i].text.None? {
          i := i + 1;
          continue;
        }
        if records[i].text.value == TextOf(addr) {
          var status, rounds := api.PatchFailover(Patch(addr.family, records[i].id.value, target));
          match status {
            case NeverArrived => return Err(CallFailed);
            case NoAnswer => return Err(CallFailed);
            case NotAccepted => return Err(CallFailed);
            case AcceptedWithTask =>
              TaskWait.WaitEndsIff(rounds);
              answer := TaskWait.WaitForTask(rounds);
              return;
            case AcceptedWithoutTask => return Ok(());
          }
        }
        i := i + 1;
      }
      return Err(AddressNotFound);
    }

    /******* nc/labels.go *******/

    method ResetNodeLabels(labelName: string, exclude: Option<string>) returns (answer: Result<()>)
      modifies api
      ensures (api.remote, answer) == LabelSpec.Reset(api.env, old(api.remote), labelName, exclude)
    {
      ghost var goal := LabelSpec.Reset(api.env, api.remote, labelName, exclude);
      var listing := api.ListMarkedNodes(labelName);
      if listing.Err? {
        return Err(listing.error);
      }
      var nodes := listing.value;
      var i := 0;
      assert nodes[0..] == nodes;
      while i < |nodes|
        invariant 0 <= i <= |nodes|
        invariant LabelSpec.ResetEach(api.env, api.remote, nodes[i..], labelName, exclude) == goal
      {
        hide Stores.LabelNode;
        assert nodes[i..][1..] == nodes[i + 1..];
        if Some(nodes[i]) == exclude {
          i := i + 1;
          continue;
        }
        var written := api.LabelNode(nodes[i], labelName, "false");
        if !written {
          return Err(LabelNotWritten);
        }
        i := i + 1;
      }
      return Ok(());
    }

    method UpdateServiceNode(service: Service, node: string) returns (answer: Result<()>)
      modifies api
      ensures (api.remote, answer) == LabelSpec.Update(api.env, old(api.remote), service, node)
    {
      var labelName := LabelName(service.name);
      answer := ResetNodeLabels(labelName, Some(node));
      if answer.Err? {
        return;
      }
      var changes := service;
      changes := changes.(nodeAnnotation := Some(node));
      changes := changes.(nodeLabel := Some(node));
      answer := api.PatchService(service, changes);
      if answer.Err? {
        return;
      }
      var written := api.LabelNode(node, labelName, "true");
      if !written {
        return Err(LabelNotWritten);
      }
      return Ok(());
    }

    method RemoveServiceNode(service: Service, clearStatus: bool) returns (answer: Result<()>)
      modifies api
      ensures (api.remote, answer) == LabelSpec.Remove(api.env, old(api.remote), service, clearStatus)
    {
      var changes := service;
      if clearStatus {
        changes := changes.(ingress := []);
      }
      changes := changes.(nodeAnnotation := None);
      changes := changes.(nodeLabel := None);
      answer := api.PatchService(service, changes);
      if answer.Err? {
        return;
      }
      answer := ResetNodeLabels(LabelName(service.name), None);
    }
  }
}
