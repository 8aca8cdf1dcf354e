/** The node side of nc/instances_v2.go: noticing that a server is down and clearing its node. */
module InstancesV2 {
  import opened Basics
  import opened Stores
  import opened CloudSpec
  import LabelLaws
  import LabelSpec
  import WorldLaws
  import C = Cloud

  ghost predicate LacksState(info: Option<ServerInfo>) {
    info.None? || info.value.live.None? || info.value.live.value.state.None?
  }

  /** InstanceShutdown: whether the server is down, and the error beside it. A server that is
      down stays reported down when clearing its node fails. */
  ghost function CheckShutdown(env: Env, w: World, node: string): (World, bool, Option<Error>) {
    var (w1, info) := Probe(env, w, node);
    if info.Err? then (w1, false, Some(info.error))
    else if LacksState(info.value) then (w1, false, Some(IncompleteInfo))
    else if info.value.value.live.value.state.value != RUNNING then
      var (r, cleared) := LabelSpec.Shutdown(env, w1.remote, node);
      (w1.(remote := r), true, if cleared.Ok? then None else Some(cleared.error))
    else (w1, false, None)
  }

  /** A server is reported down exactly when SCP showed it in another state than RUNNING, and up
      without error exactly when it was shown RUNNING. Down without error means that the node
      is cleared: no service is left on it, and none of its services has an active node. Down
      with an error means that its services were cleared in part. Otherwise Kubernetes is
      untouched. */
  lemma ReportsWhatScpShows(env: Env, w: World, node: string)
    requires LabelLaws.ValidKube(w.remote.kube)
    ensures var (w', down, error) := CheckShutdown(env, w, node);
            var seen := Probe(env, w, node).1;
            var found := LabelledServices(w.remote.kube.serviceOrder, w.remote.kube, node);
            && (down <==> seen.Ok? && !LacksState(seen.value) && seen.value.value.live.value.state != Some(RUNNING))
            && (!down && error.None? <==>
                  seen.Ok? && !LacksState(seen.value) && seen.value.value.live.value.state == Some(RUNNING))
            && (seen.Err? ==> error == Some(seen.error))
            && (seen.Ok? && LacksState(seen.value) ==> error == Some(IncompleteInfo))
            && (down && error.None? ==>
                  && (forall key :: key in w'.remote.kube.services ==> w'.remote.kube.services[key].nodeLabel != Some(node))
                  && (forall key :: key in w.remote.kube.services && w.remote.kube.services[key].nodeLabel == Some(node) ==>
                        w'.remote.kube.Active(LabelName(w.remote.kube.services[key].name)) == {}))
            && (down && error.Some? ==> LabelLaws.ClearedInPart(w.remote.kube, w'.remote.kube, found))
            && (!down ==> w'.remote.kube == w.remote.kube)
  {
    hide Probe, LabelSpec.Shutdown, LabelLaws.ClearedInPart;
    WorldLaws.ProbeReads(env, w, node);
    var (w1, info) := Probe(env, w, node);
    if info.Ok? && !LacksState(info.value) {
      if LabelSpec.Shutdown(env, w1.remote, node).1.Ok? {
        LabelLaws.ShutdownClearsTheNode(env, w1.remote, node);
      } else {
        LabelLaws.ShutdownFailsInPart(env, w1.remote, node);
      }
    }
  }

  class InstancesV2 {
    const cloud: C.Cloud

    constructor (cloud: C.Cloud)
      ensures this.cloud == cloud
    {
      this.cloud := cloud;
    }

    method InstanceShutdown(node: string) returns (down: bool, error: Option<Error>)
      modifies cloud`server, cloud`log, cloud.api
      ensures (cloud.World(), down, error) == CheckShutdown(cloud.api.env, old(cloud.World()), node)
    {
      var resp := cloud.GetServer(node);
      if resp.Err? {
        return false, Some(resp.error);
      }
      if resp.value.None? || resp.value.value.live.None? || resp.value.value.live.value.state.None? {
        return false, Some(IncompleteInfo);
      }
      if resp.value.value.live.value.state.value != RUNNING {
        var cleared := HandleShutdown(node);
        return true, if cleared.Ok? then None else Some(cleared.error);
      }
      return false, None;
    }

    method HandleShutdown(node: string) returns (answer: Result<()>)
      modifies cloud.api
      ensures (cloud.api.remote, answer) == LabelSpec.Shutdown(cloud.api.env, old(cloud.api.remote), node)
    {
      var listing := cloud.api.ListServices(node);
      if listing.Err? {
        return Err(listing.error);
      }
      var services := listing.value;
      var i := 0;
      while i < |services|
        invariant 0 <= i <= |services|
        invariant LabelSpec.RemoveEach(cloud.api.env, cloud.api.remote, services[i..]) ==
                  LabelSpec.Shutdown(cloud.api.env, old(cloud.api.remote), node)
      {
        assert services[i..][1..] == services[i + 1..];
        var removed := cloud.RemoveServiceNode(services[i], true);
        if removed.Err? {
          return removed;
        }
        i := i + 1;
      }
      return Ok(());
    }
  }
}
