/** What the operations of nc/labels.go compute. */
module LabelSpec {
  import opened Basics
  import opened Stores

  ghost function ResetEach(env: Env, r: Remote, nodes: seq<string>, labelName: string, exclude: Option<string>)
    : (Remote, Result<()>)
    decreases |nodes|
  {
    if nodes == [] then (r, Ok(()))
    else if Some(nodes[0]) == exclude then ResetEach(env, r, nodes[1..], labelName, exclude)
    else
      var (r1, written) := LabelNode(env, r, nodes[0], labelName, "false");
      if written then ResetEach(env, r1, nodes[1..], labelName, exclude) else (r1, Err(LabelNotWritten))
  }

  ghost function Reset(env: Env, r: Remote, labelName: string, exclude: Option<string>): (Remote, Result<()>) {
    var (r1, marked) := ListMarkedNodes(env, r, labelName);
    if marked.Err? then (r1, Err(marked.error))
    else ResetEach(env, r1, marked.value, labelName, exclude)
  }

  ghost function Labelled(service: Service, node: string): Service {
    service.(nodeLabel := Some(node), nodeAnnotation := Some(node))
  }

  ghost function Unlabelled(service: Service, clearStatus: bool): Service {
    service.(nodeLabel := None, nodeAnnotation := None, ingress := if clearStatus then [] else service.ingress)
  }

  ghost function Update(env: Env, r: Remote, service: Service, node: string): (Remote, Result<()>) {
    var labelName := LabelName(service.name);
    var (r1, reset) := Reset(env, r, labelName, Some(node));
    if reset.Err? then (r1, reset)
    else
      var (r2, patched) := PatchService(env, r1, service, Labelled(service, node));
      if patched.Err? then (r2, patched)
      else
        var (r3, written) := LabelNode(env, r2, node, labelName, "true");
        (r3, if written then Ok(()) else Err(LabelNotWritten))
  }

  ghost function Remove(env: Env, r: Remote, service: Service, clearStatus: bool): (Remote, Result<()>) {
    var (r1, patched) := PatchService(env, r, service, Unlabelled(service, clearStatus));
    if patched.Err? then (r1, patched)
    else Reset(env, r1, LabelName(service.name), None)
  }

  /** createLoadBalancerStatus: both steps work from the same copy of the service. */
  ghost function CreateStatus(env: Env, r: Remote, service: Service, node: string): (Remote, Result<()>) {
    if service.nodeLabel.None? then Update(env, r, service, node)
    else
      var (r1, removed) := Remove(env, r, service, false);
      if removed.Err? then (r1, removed) else Update(env, r1, service, node)
  }

  ghost function Delete(env: Env, r: Remote, service: Service): (Remote, Result<()>) {
    if service.nodeLabel.None? then (r, Ok(())) else Remove(env, r, service, false)
  }

  ghost function RemoveEach(env: Env, r: Remote, services: seq<Service>): (Remote, Result<()>)
    decreases |services|
  {
    if services == [] then (r, Ok(()))
    else
      var (r1, removed) := Remove(env, r, services[0], true);
      if removed.Err? then (r1, removed) else RemoveEach(env, r1, services[1..])
  }

  ghost function Shutdown(env: Env, r: Remote, node: string): (Remote, Result<()>) {
    var (r1, services) := ListServices(env, r, node);
    if services.Err? then (r1, Err(services.error))
    else RemoveEach(env, r1, services.value)
  }
}
