/** What the label operations leave in Kubernetes, when they succeed and when they fail. */
module LabelLaws {
  import opened Basics
  import opened Stores
  import opened LabelSpec

  /** One label, on every node that has it. */
  ghost function MarksOf(kube: Kube, labelName: string): map<(string, string), string> {
    map nl | nl in kube.marks && nl.1 == labelName :: kube.marks[nl]
  }

  /** The node labels of every other name are untouched. */
  ghost predicate OtherLabelsKept(before: Kube, after: Kube, labelName: string) {
    forall l :: l != labelName ==> MarksOf(after, l) == MarksOf(before, l)
  }

  lemma SameMarks(before: Kube, after: Kube, labelName: string)
    requires MarksOf(after, labelName) == MarksOf(before, labelName)
    ensures forall n :: after.Marked(n, labelName) <==> before.Marked(n, labelName)
  {
    forall n
      ensures after.Marked(n, labelName) <==> before.Marked(n, labelName)
    {
      assert (n, labelName) in MarksOf(after, labelName) <==> (n, labelName) in after.marks;
      assert (n, labelName) in MarksOf(before, labelName) <==> (n, labelName) in before.marks;
    }
  }

  lemma SetMarkMarks(kube: Kube, node: string, labelName: string, value: string)
    ensures var k := SetMark(kube, node, labelName, value);
            && OtherLabelsKept(kube, k, labelName)
            && (forall n, l :: k.Marked(n, l) <==> if n == node && l == labelName then value == "true" else kube.Marked(n, l))
  {
  }

  /** The label of every listed node, but the excluded one, set to "false". */
  ghost function ClearEach(kube: Kube, nodes: seq<string>, labelName: string, exclude: Option<string>): Kube
    decreases |nodes|
  {
    if nodes == [] then kube
    else ClearEach(if Some(nodes[0]) == exclude then kube else SetMark(kube, nodes[0], labelName, "false"),
                   nodes[1..], labelName, exclude)
  }

  lemma {:induction false} ClearEachMarks(kube: Kube, nodes: seq<string>, labelName: string, exclude: Option<string>)
    ensures var k := ClearEach(kube, nodes, labelName, exclude);
            && k.services == kube.services && k.serviceOrder == kube.serviceOrder && k.nodes == kube.nodes
            && (forall n, l :: k.Marked(n, l) <==> kube.Marked(n, l) && !(l == labelName && n in nodes && Some(n) != exclude))
            && OtherLabelsKept(kube, k, labelName)
            && (forall n :: n in nodes && Some(n) != exclude ==> (n, labelName) in k.marks && k.marks[(n, labelName)] == "false")
            && (forall n :: n !in nodes || Some(n) == exclude ==>
                  ((n, labelName) in k.marks <==> (n, labelName) in kube.marks) &&
                  ((n, labelName) in k.marks ==> k.marks[(n, labelName)] == kube.marks[(n, labelName)]))
    decreases |nodes|
  {
    if nodes != [] {
      var next := if Some(nodes[0]) == exclude then kube else SetMark(kube, nodes[0], labelName, "false");
      ClearEachMarks(next, nodes[1..], labelName, exclude);
      SetMarkMarks(kube, nodes[0], labelName, "false");
      assert forall n :: n in nodes <==> n == nodes[0] || n in nodes[1..];
      assert forall n, l :: next.Marked(n, l) <==> kube.Marked(n, l) && !(l == labelName && n == nodes[0] && Some(n) != exclude);
    }
  }

  /** A prefix of the listed nodes was cleared. */
  ghost predicate PartlyCleared(before: Kube, after: Kube, nodes: seq<string>, labelName: string, exclude: Option<string>) {
    exists p :: 0 <= p <= |nodes| && after == ClearEach(before, nodes[..p], labelName, exclude)
  }

  lemma {:induction false} ResetEachOutcome(env: Env, r: Remote, nodes: seq<string>, labelName: string, exclude: Option<string>)
    ensures var (r', answer) := ResetEach(env, r, nodes, labelName, exclude);
            && (answer.Ok? ==> r'.kube == ClearEach(r.kube, nodes, labelName, exclude))
            && PartlyCleared(r.kube, r'.kube, nodes, labelName, exclude)
    decreases |nodes|
  {
    var (r', answer) := ResetEach(env, r, nodes, labelName, exclude);
    if nodes == [] {
      assert r'.kube == ClearEach(r.kube, nodes[..0], labelName, exclude);
    } else {
      var skip := Some(nodes[0]) == exclude;
      var (r1, written) := if skip then (r, true) else LabelNode(env, r, nodes[0], labelName, "false");
      if written {
        ResetEachOutcome(env, r1, nodes[1..], labelName, exclude);
        var p :| 0 <= p <= |nodes[1..]| && r'.kube == ClearEach(r1.kube, nodes[1..][..p], labelName, exclude);
        assert nodes[..p + 1][1..] == nodes[1..][..p];
        assert r'.kube == ClearEach(r.kube, nodes[..p + 1], labelName, exclude);
      } else if r1.kube == r.kube {
        assert r'.kube == ClearEach(r.kube, nodes[..0], labelName, exclude);
      } else {
        assert r'.kube == ClearEach(r.kube, nodes[..1], labelName, exclude);
      }
    }
  }

  ghost function MarkedIn(kube: Kube, labelName: string): seq<string> {
    MarkedNodes(kube.nodes, kube, labelName)
  }

  lemma ResetOutcome(env: Env, r: Remote, labelName: string, exclude: Option<string>)
    ensures var (r', answer) := Reset(env, r, labelName, exclude);
            && (answer.Ok? ==> r'.kube == ClearEach(r.kube, MarkedIn(r.kube, labelName), labelName, exclude))
            && PartlyCleared(r.kube, r'.kube, MarkedIn(r.kube, labelName), labelName, exclude)
  {
    var (r1, marked) := ListMarkedNodes(env, r, labelName);
    if marked.Ok? {
      ResetEachOutcome(env, r1, marked.value, labelName, exclude);
    } else {
      assert r.kube == ClearEach(r.kube, MarkedIn(r.kube, labelName)[..0], labelName, exclude);
    }
  }

  /** After a reset only the excluded node can be active. */
  lemma ClearedActive(kube: Kube, labelName: string, exclude: Option<string>)
    ensures var k := ClearEach(kube, MarkedIn(kube, labelName), labelName, exclude);
            k.Active(labelName) == set n | n in kube.Active(labelName) && Some(n) == exclude
  {
    ClearEachMarks(kube, MarkedIn(kube, labelName), labelName, exclude);
  }

  /******* Success *******/

  ghost function WithPatch(kube: Kube, before: Service, after: Service): Kube
    requires before.Key() in kube.services
  {
    kube.(services := kube.services[before.Key() := PatchedService(before, after, kube.services[before.Key()])])
  }

  ghost function Removed(kube: Kube, service: Service, clearStatus: bool): Kube
    requires service.Key() in kube.services
  {
    var patched := WithPatch(kube, service, Unlabelled(service, clearStatus));
    ClearEach(patched, MarkedIn(patched, LabelName(service.name)), LabelName(service.name), None)
  }

  ghost function Updated(kube: Kube, service: Service, node: string): Kube
    requires service.Key() in kube.services
  {
    var labelName := LabelName(service.name);
    var cleared := ClearEach(kube, MarkedIn(kube, labelName), labelName, Some(node));
    ClearEachMarks(kube, MarkedIn(kube, labelName), labelName, Some(node));
    SetMark(WithPatch(cleared, service, Labelled(service, node)), node, labelName, "true")
  }

  /** What removing leaves of the service object, given the caller's copy: label and annotation go
      unless the copy has none, in which case they stay whatever they are; the status is emptied
      only if asked for and if the copy has one; nothing else changes. */
  ghost predicate FieldsRemoved(copy: Service, before: Service, after: Service, clearStatus: bool) {
    && after.nodeLabel == (if copy.nodeLabel.None? then before.nodeLabel else None)
    && after.nodeAnnotation == (if copy.nodeAnnotation.None? then before.nodeAnnotation else None)
    && after.ingress == (if clearStatus && copy.ingress != [] then [] else before.ingress)
    && after.namespace == before.namespace && after.name == before.name && after.families == before.families
  }

  /** What an update leaves of it: label and annotation become the node unless the copy names that
      node already, in which case they stay whatever they are; nothing else changes. */
  ghost predicate FieldsUpdated(copy: Service, before: Service, after: Service, node: string) {
    && after.nodeLabel == (if copy.nodeLabel == Some(node) then before.nodeLabel else Some(node))
    && after.nodeAnnotation == (if copy.nodeAnnotation == Some(node) then before.nodeAnnotation else Some(node))
    && after.ingress == before.ingress
    && after.namespace == before.namespace && after.name == before.name && after.families == before.families
  }

  /** Only the service under this key has changed. */
  ghost predicate OnlyService(before: Kube, after: Kube, key: Key) {
    && key in before.services && key in after.services
    && after.services == before.services[key := after.services[key]]
  }

  /** A successful removal, from any copy of the service, stale or not. */
  lemma RemovalLeaves(env: Env, r: Remote, service: Service, clearStatus: bool)
    requires Remove(env, r, service, clearStatus).1.Ok?
    ensures var k := Remove(env, r, service, clearStatus).0.kube;
            && OnlyService(r.kube, k, service.Key())
            && FieldsRemoved(service, r.kube.services[service.Key()], k.services[service.Key()], clearStatus)
            && k.Active(LabelName(service.name)) == {} && OtherLabelsKept(r.kube, k, LabelName(service.name))
            && k.nodes == r.kube.nodes && k.serviceOrder == r.kube.serviceOrder
  {
    hide Remove;
    RemoveSucceeds(env, r, service, clearStatus);
    RemovedMarks(r.kube, service, clearStatus);
  }

  /** A successful update, from any copy of the service, stale or not. */
  lemma UpdateLeaves(env: Env, r: Remote, service: Service, node: string)
    requires Update(env, r, service, node).1.Ok?
    ensures var k := Update(env, r, service, node).0.kube;
            && OnlyService(r.kube, k, service.Key())
            && FieldsUpdated(service, r.kube.services[service.Key()], k.services[service.Key()], node)
            && k.Active(LabelName(service.name)) == {node} && OtherLabelsKept(r.kube, k, LabelName(service.name))
            && k.nodes == r.kube.nodes && k.serviceOrder == r.kube.serviceOrder
  {
    hide Update;
    UpdateSucceeds(env, r, service, node);
    UpdatedMarks(r.kube, service, node);
  }

  lemma RemoveSucceeds(env: Env, r: Remote, service: Service, clearStatus: bool)
    requires Remove(env, r, service, clearStatus).1.Ok?
    ensures service.Key() in r.kube.services
    ensures Remove(env, r, service, clearStatus).0.kube == Removed(r.kube, service, clearStatus)
  {
    var (r1, patched) := PatchService(env, r, service, Unlabelled(service, clearStatus));
    ResetOutcome(env, r1, LabelName(service.name), None);
  }

  lemma UpdateSucceeds(env: Env, r: Remote, service: Service, node: string)
    requires Update(env, r, service, node).1.Ok?
    ensures service.Key() in r.kube.services && node in r.kube.nodes
    ensures Update(env, r, service, node).0.kube == Updated(r.kube, service, node)
  {
    hide Reset;
    var labelName := LabelName(service.name);
    ResetOutcome(env, r, labelName, Some(node));
    ClearEachMarks(r.kube, MarkedIn(r.kube, labelName), labelName, Some(node));
    var (r1, reset) := Reset(env, r, labelName, Some(node));
    assert r1.kube == ClearEach(r.kube, MarkedIn(r.kube, labelName), labelName, Some(node));
    var (r2, patched) := PatchService(env, r1, service, Labelled(service, node));
    assert r2.kube == WithPatch(r1.kube, service, Labelled(service, node));
    var (r3, written) := LabelNode(env, r2, node, labelName, "true");
    assert Update(env, r, service, node) == (r3, Ok(()));
  }

  lemma RemovedMarks(kube: Kube, service: Service, clearStatus: bool)
    requires service.Key() in kube.services
    ensures var k := Removed(kube, service, clearStatus);
            && k.Active(LabelName(service.name)) == {}
            && k.nodes == kube.nodes && k.serviceOrder == kube.serviceOrder
            && k.services == WithPatch(kube, service, Unlabelled(service, clearStatus)).services
            && OtherLabelsKept(kube, k, LabelName(service.name))
            && (forall n, l :: k.Marked(n, l) ==> kube.Marked(n, l))
  {
    var patched := WithPatch(kube, service, Unlabelled(service, clearStatus));
    ClearEachMarks(patched, MarkedIn(patched, LabelName(service.name)), LabelName(service.name), None);
  }

  /** From any starting labels, exactly the chosen node is active after an update. */
  lemma UpdatedMarks(kube: Kube, service: Service, node: string)
    requires service.Key() in kube.services && node in kube.nodes
    ensures var k := Updated(kube, service, node);
            && k.Active(LabelName(service.name)) == {node}
            && k.nodes == kube.nodes && k.serviceOrder == kube.serviceOrder
            && k.services == WithPatch(kube, service, Labelled(service, node)).services
            && OtherLabelsKept(kube, k, LabelName(service.name))
  {
    var labelName := LabelName(service.name);
    var cleared := ClearEach(kube, MarkedIn(kube, labelName), labelName, Some(node));
    ClearEachMarks(kube, MarkedIn(kube, labelName), labelName, Some(node));
    ClearedActive(kube, labelName, Some(node));
    var k := Updated(kube, service, node);
    assert forall n, l :: k.Marked(n, l) <==> (n == node && l == labelName) || cleared.Marked(n, l);
  }

  /** The caller's copy of a service is what the server holds. */
  ghost predicate Fresh(kube: Kube, service: Service) {
    service.Key() in kube.services && kube.services[service.Key()] == service
  }

  /** The two steps of recording a new balancer work from one copy, so the second cannot put
      back what the first removed: from a fresh copy the label ends up as the chosen node
      exactly if it was not that node before, and otherwise it is gone; likewise for an
      annotation that a removal preceded. The node labels are right in every case. */
  lemma StaleCopyLaw(env: Env, r: Remote, service: Service, node: string)
    requires Fresh(r.kube, service)
    requires CreateStatus(env, r, service, node).1.Ok?
    ensures var k := CreateStatus(env, r, service, node).0.kube;
            && service.Key() in k.services
            && var after := k.services[service.Key()];
            && (after.nodeLabel == Some(node) <==> service.nodeLabel != Some(node))
            && (service.nodeLabel == Some(node) ==> after.nodeLabel == None)
            && (after.nodeAnnotation == Some(node) <==> service.nodeLabel.None? || service.nodeAnnotation != Some(node))
            && (after.nodeAnnotation != Some(node) ==> after.nodeAnnotation == None)
            && after == service.(nodeLabel := after.nodeLabel, nodeAnnotation := after.nodeAnnotation)
            && k.services == r.kube.services[service.Key() := after]
            && k.Active(LabelName(service.name)) == {node}
            && k.nodes == r.kube.nodes && k.serviceOrder == r.kube.serviceOrder
            && OtherLabelsKept(r.kube, k, LabelName(service.name))
  {
    if service.nodeLabel.None? {
      UpdateSucceeds(env, r, service, node);
      UpdatedMarks(r.kube, service, node);
    } else {
      var r1 := Remove(env, r, service, false).0;
      RemoveSucceeds(env, r, service, false);
      RemovedMarks(r.kube, service, false);
      UpdateSucceeds(env, r1, service, node);
      UpdatedMarks(r1.kube, service, node);
    }
  }

  /** Deleting from a fresh copy leaves no node active exactly if the service carried a label or
      no node was active anyway; the status stays, and so does every other label. */
  lemma DeleteClearsIff(env: Env, r: Remote, service: Service)
    requires Fresh(r.kube, service) && Delete(env, r, service).1.Ok?
    ensures var k := Delete(env, r, service).0.kube;
            && (k.Active(LabelName(service.name)) == {} <==>
                  service.nodeLabel.Some? || r.kube.Active(LabelName(service.name)) == {})
            && OnlyService(r.kube, k, service.Key())
            && (service.nodeLabel.Some? ==> FieldsRemoved(service, service, k.services[service.Key()], false))
            && (service.nodeLabel.None? ==> k.services == r.kube.services)
            && OtherLabelsKept(r.kube, k, LabelName(service.name))
  {
    if service.nodeLabel.Some? {
      RemoveSucceeds(env, r, service, false);
      RemovedMarks(r.kube, service, false);
    } else {
      assert r.kube.services[service.Key() := service] == r.kube.services;
    }
  }

  /** A deletion that follows the recording of a new balancer clears the node, unless the stale
      copy had cost the service its label: then the chosen node stays active for good. */
  lemma DeleteAfterRecording(env: Env, r: Remote, service: Service, node: string)
    requires Fresh(r.kube, service)
    ensures var (r1, created) := CreateStatus(env, r, service, node);
            created.Ok? ==>
              && service.Key() in r1.kube.services
              && var (r2, deleted) := Delete(env, r1, r1.kube.services[service.Key()]);
              deleted.Ok? ==>
                r2.kube.Active(LabelName(service.name)) == if service.nodeLabel == Some(node) then {node} else {}
  {
    hide CreateStatus, Delete;
    var (r1, created) := CreateStatus(env, r, service, node);
    if created.Ok? {
      StaleCopyLaw(env, r, service, node);
      var copy := r1.kube.services[service.Key()];
      if Delete(env, r1, copy).1.Ok? {
        DeleteClearsIff(env, r1, copy);
        DeleteUnlabelled(env, r1, copy);
      }
    }
  }

  lemma DeleteUnlabelled(env: Env, r: Remote, service: Service)
    ensures service.nodeLabel.None? ==> Delete(env, r, service) == (r, Ok(()))
  {
  }

  /******* Shutdown *******/

  ghost predicate ValidKube(kube: Kube) {
    && (forall k :: k in kube.services ==> kube.services[k].Key() == k)
    && (forall k :: k in kube.services ==> k in kube.serviceOrder)
    && (forall i, j :: 0 <= i < j < |kube.serviceOrder| ==> kube.serviceOrder[i] != kube.serviceOrder[j])
  }

  /** Distinct services, each a fresh copy. */
  ghost predicate FreshCopies(kube: Kube, services: seq<Service>) {
    && (forall s :: s in services ==> Fresh(kube, s))
    && (forall i, j :: 0 <= i < j < |services| ==> services[i].Key() != services[j].Key())
  }

  ghost function RemovedEach(kube: Kube, services: seq<Service>): Kube
    decreases |services|
  {
    if services == [] then kube
    else if services[0].Key() !in kube.services then kube
    else RemovedEach(Removed(kube, services[0], true), services[1..])
  }

  lemma FreshAfterRemoval(kube: Kube, services: seq<Service>)
    requires services != [] && Fresh(kube, services[0]) && FreshCopies(kube, services)
    ensures services[0].Key() in kube.services
    ensures FreshCopies(Removed(kube, services[0], true), services[1..])
    ensures Removed(kube, services[0], true).services ==
            kube.services[services[0].Key() := Unlabelled(services[0], true)]
  {
    assert services[0] in services;
    RemovedMarks(kube, services[0], true);
    forall s | s in services[1..]
      ensures Fresh(Removed(kube, services[0], true), s)
    {
      assert s in services;
      assert Fresh(kube, s);
      var i :| 1 <= i < |services| && services[i] == s;
      assert services[0].Key() != services[i].Key();
    }
  }

  /** No label, no annotation, no balancer status; everything else as before. */
  ghost predicate Cleared(before: Service, after: Service) {
    && after.nodeLabel == None && after.nodeAnnotation == None && after.ingress == []
    && after.namespace == before.namespace && after.name == before.name && after.families == before.families
  }

  /** Removing each of a list of services from fresh copies: those are cleared altogether,
      every other service and every node label of another name stays. */
  lemma {:induction false} RemovedEachClears(kube: Kube, services: seq<Service>)
    requires FreshCopies(kube, services)
    ensures var k := RemovedEach(kube, services);
            && k.services.Keys == kube.services.Keys && k.nodes == kube.nodes && k.serviceOrder == kube.serviceOrder
            && (forall s :: s in services ==> Cleared(s, k.services[s.Key()]) && k.Active(LabelName(s.name)) == {})
            && (forall key :: key in kube.services && (forall s :: s in services ==> s.Key() != key) ==>
                  k.services[key] == kube.services[key])
            && (forall l :: (forall s :: s in services ==> LabelName(s.name) != l) ==> MarksOf(k, l) == MarksOf(kube, l))
            && (forall n, l :: k.Marked(n, l) ==> kube.Marked(n, l))
    decreases |services|
  {
    if services != [] {
      var first, rest := services[0], services[1..];
      assert first in services;
      assert Fresh(kube, first);
      var k1 := Removed(kube, first, true);
      FreshAfterRemoval(kube, services);
      RemovedMarks(kube, first, true);
      RemovedEachClears(k1, rest);
      var k := RemovedEach(kube, services);
      assert k == RemovedEach(k1, rest);
      assert forall s :: s in services <==> s == first || s in rest;
      forall s | s in rest
        ensures s.Key() != first.Key()
      {
        var i :| 1 <= i < |services| && services[i] == s;
        assert services[0].Key() != services[i].Key();
      }
      assert k.Active(LabelName(first.name)) == {} by {
        assert forall n :: n in k.Active(LabelName(first.name)) ==> n in k1.Active(LabelName(first.name));
      }
    }
  }

  lemma {:induction false} ListingIsFresh(kube: Kube, order: seq<Key>, node: string)
    requires forall k :: k in kube.services ==> kube.services[k].Key() == k
    requires forall i, j :: 0 <= i < j < |order| ==> order[i] != order[j]
    ensures FreshCopies(kube, LabelledServices(order, kube, node))
  {
    if order != [] {
      ListingIsFresh(kube, order[1..], node);
      var rest := LabelledServices(order[1..], kube, node);
      var found := LabelledServices(order, kube, node);
      forall s | s in rest
        ensures s.Key() != order[0]
      {
        var k :| k in order[1..] && k in kube.services && kube.services[k] == s;
        var i :| 1 <= i < |order| && order[i] == k;
        assert order[0] != order[i];
      }
    }
  }

  lemma {:induction false} RemoveEachSucceeds(env: Env, r: Remote, services: seq<Service>)
    requires RemoveEach(env, r, services).1.Ok?
    ensures RemoveEach(env, r, services).0.kube == RemovedEach(r.kube, services)
    decreases |services|
  {
    if services != [] {
      RemoveSucceeds(env, r, services[0], true);
      RemoveEachSucceeds(env, Remove(env, r, services[0], true).0, services[1..]);
    }
  }

  /** A successful shutdown clears exactly the services on the node: they lose label,
      annotation and status, no node is active for their names, and all other services and
      all node labels of other service names are as before. */
  lemma ShutdownClearsTheNode(env: Env, r: Remote, node: string)
    requires ValidKube(r.kube)
    requires Shutdown(env, r, node).1.Ok?
    ensures var k := Shutdown(env, r, node).0.kube;
            && k.services.Keys == r.kube.services.Keys
            && (forall key :: key in k.services ==>
                  if r.kube.services[key].nodeLabel == Some(node) then Cleared(r.kube.services[key], k.services[key])
                  else k.services[key] == r.kube.services[key])
            && (forall key :: key in k.services && r.kube.services[key].nodeLabel == Some(node) ==>
                  k.Active(LabelName(r.kube.services[key].name)) == {})
            && (forall name, n ::
                  (forall key :: key in r.kube.services && r.kube.services[key].nodeLabel == Some(node) ==> r.kube.services[key].name != name)
                  ==> (k.Marked(n, LabelName(name)) <==> r.kube.Marked(n, LabelName(name))))
  {
    var (r1, listing) := ListServices(env, r, node);
    var found := listing.value;
    RemoveEachSucceeds(env, r1, found);
    ListingIsFresh(r.kube, r.kube.serviceOrder, node);
    RemovedEachClears(r.kube, found);
    var k := Shutdown(env, r, node).0.kube;
    forall key | key in k.services
      ensures (r.kube.services[key].nodeLabel == Some(node) ==> r.kube.services[key] in found)
      ensures r.kube.services[key].nodeLabel != Some(node) ==> forall s :: s in found ==> s.Key() != key
    {
      forall s | s in found && s.Key() == key
        ensures r.kube.services[key].nodeLabel == Some(node)
      {
        assert Fresh(r.kube, s);
      }
    }
    forall name, n | forall key :: key in r.kube.services && r.kube.services[key].nodeLabel == Some(node) ==> r.kube.services[key].name != name
      ensures k.Marked(n, LabelName(name)) <==> r.kube.Marked(n, LabelName(name))
    {
      forall s | s in found
        ensures LabelName(s.name) != LabelName(name)
      {
        assert Fresh(r.kube, s);
        if LabelName(s.name) == LabelName(name) {
          LabelNameInjective(s.name, name);
        }
      }
      SameMarks(r.kube, k, LabelName(name));
    }
  }

  /******* Failure *******/

  /** One removal that stopped on the way: nothing happened, or the service was patched and a
      prefix of its active nodes cleared. */
  ghost predicate PartlyRemoved(before: Kube, after: Kube, service: Service, clearStatus: bool) {
    || after == before
    || (service.Key() in before.services &&
        var patched := WithPatch(before, service, Unlabelled(service, clearStatus));
        PartlyCleared(patched, after, MarkedIn(patched, LabelName(service.name)), LabelName(service.name), None))
  }

  lemma RemoveFails(env: Env, r: Remote, service: Service, clearStatus: bool)
    requires Remove(env, r, service, clearStatus).1.Err?
    ensures PartlyRemoved(r.kube, Remove(env, r, service, clearStatus).0.kube, service, clearStatus)
  {
    var (r1, patched) := PatchService(env, r, service, Unlabelled(service, clearStatus));
    if patched.Ok? {
      ResetOutcome(env, r1, LabelName(service.name), None);
    } else if r1.kube != r.kube {
      var marked := MarkedIn(r1.kube, LabelName(service.name));
      assert r1.kube == ClearEach(r1.kube, marked[..0], LabelName(service.name), None);
    }
  }

  /** One update that stopped on the way. Either the service is untouched and a prefix of the other
      active nodes was cleared; or all of them were, the service was patched, and at most the
      chosen node is active. It never loses its label, and no other label changes. */
  ghost predicate PartlyUpdated(before: Kube, after: Kube, service: Service, node: string) {
    var labelName := LabelName(service.name);
    && after.nodes == before.nodes && after.serviceOrder == before.serviceOrder && OtherLabelsKept(before, after, labelName)
    && (node in before.Active(labelName) ==> node in after.Active(labelName))
    && (|| (after.services == before.services && PartlyCleared(before, after, MarkedIn(before, labelName), labelName, Some(node)))
        || (OnlyService(before, after, service.Key()) &&
            FieldsUpdated(service, before.services[service.Key()], after.services[service.Key()], node) &&
            after.Active(labelName) <= {node}))
  }

  lemma {:induction false} PartlyClearedKeeps(before: Kube, after: Kube, nodes: seq<string>, labelName: string, exclude: Option<string>)
    requires PartlyCleared(before, after, nodes, labelName, exclude)
    ensures after.services == before.services && after.nodes == before.nodes && after.serviceOrder == before.serviceOrder
    ensures OtherLabelsKept(before, after, labelName)
    ensures exclude.Some? && exclude.value in before.Active(labelName) ==> exclude.value in after.Active(labelName)
  {
    var p :| 0 <= p <= |nodes| && after == ClearEach(before, nodes[..p], labelName, exclude);
    ClearEachMarks(before, nodes[..p], labelName, exclude);
  }

  /** What a failed update leaves: in particular a failed reset leaves label and annotation alone. */
  lemma UpdateFails(env: Env, r: Remote, service: Service, node: string)
    requires Update(env, r, service, node).1.Err?
    ensures PartlyUpdated(r.kube, Update(env, r, service, node).0.kube, service, node)
    ensures Reset(env, r, LabelName(service.name), Some(node)).1.Err? ==>
              Update(env, r, service, node).0.kube.services == r.kube.services
  {
    hide Reset, PartlyCleared, OtherLabelsKept, ClearEach;
    var labelName := LabelName(service.name);
    var (r1, reset) := Reset(env, r, labelName, Some(node));
    ResetOutcome(env, r, labelName, Some(node));
    PartlyClearedKeeps(r.kube, r1.kube, MarkedIn(r.kube, labelName), labelName, Some(node));
    if reset.Ok? {
      ClearedActive(r.kube, labelName, Some(node));
      AfterReset(env, r.kube, r1, service, node);
    }
  }

  lemma AfterReset(env: Env, before: Kube, r1: Remote, service: Service, node: string)
    requires var labelName := LabelName(service.name);
             && r1.kube.services == before.services && r1.kube.nodes == before.nodes && r1.kube.serviceOrder == before.serviceOrder
             && OtherLabelsKept(before, r1.kube, labelName)
             && r1.kube.Active(labelName) == (set n | n in before.Active(labelName) && n == node)
             && PartlyCleared(before, r1.kube, MarkedIn(before, labelName), labelName, Some(node))
    ensures var (r2, patched) := PatchService(env, r1, service, Labelled(service, node));
            && (patched.Err? ==> PartlyUpdated(before, r2.kube, service, node))
            && var (r3, written) := LabelNode(env, r2, node, LabelName(service.name), "true");
               patched.Ok? && !written ==> PartlyUpdated(before, r3.kube, service, node)
  {
    hide PartlyCleared, OtherLabelsKept;
    var labelName := LabelName(service.name);
    var (r2, patched) := PatchService(env, r1, service, Labelled(service, node));
    assert OtherLabelsKept(before, r2.kube, labelName) && r2.kube.Active(labelName) == r1.kube.Active(labelName) by {
      SamePatch(before, r1.kube, r2.kube, labelName);
    }
    if patched.Ok? {
      var (r3, written) := LabelNode(env, r2, node, labelName, "true");
      if !written && r3.kube != r2.kube {
        MarkedOne(before, r2.kube, node, labelName);
      }
    }
  }

  lemma SamePatch(before: Kube, k: Kube, k': Kube, labelName: string)
    requires OtherLabelsKept(before, k, labelName) && k'.marks == k.marks && k'.nodes == k.nodes
    ensures OtherLabelsKept(before, k', labelName) && k'.Active(labelName) == k.Active(labelName)
  {
    assert forall l :: MarksOf(k', l) == MarksOf(k, l);
    assert forall n :: k'.Marked(n, labelName) <==> k.Marked(n, labelName);
  }

  lemma MarkedOne(before: Kube, k: Kube, node: string, labelName: string)
    requires OtherLabelsKept(before, k, labelName) && k.Active(labelName) <= {node}
    ensures var k' := SetMark(k, node, labelName, "true");
            OtherLabelsKept(before, k', labelName) && k'.Active(labelName) <= {node} && (node in k.nodes ==> node in k'.Active(labelName))
  {
    SetMarkMarks(k, node, labelName, "true");
    assert forall n :: n in k.Active(labelName) ==> n == node;
  }

  /** A failed recording of a new balancer stopped on the way of the removal, or of the update after
      a complete removal. */
  lemma CreateStatusFails(env: Env, r: Remote, service: Service, node: string)
    requires CreateStatus(env, r, service, node).1.Err?
    ensures var k := CreateStatus(env, r, service, node).0.kube;
            if service.nodeLabel.None? then PartlyUpdated(r.kube, k, service, node)
            else
              || PartlyRemoved(r.kube, k, service, false)
              || (service.Key() in r.kube.services && PartlyUpdated(Removed(r.kube, service, false), k, service, node))
  {
    hide Update, Remove, PartlyUpdated, PartlyRemoved, Removed;
    if service.nodeLabel.None? {
      UpdateFails(env, r, service, node);
    } else {
      var (r1, removed) := Remove(env, r, service, false);
      if removed.Err? {
        RemoveFails(env, r, service, false);
      } else {
        RemoveSucceeds(env, r, service, false);
        UpdateFails(env, r1, service, node);
      }
    }
  }

  /** A failed shutdown has removed a prefix of its services completely, and the next one in part. */
  lemma {:induction false} RemoveEachFails(env: Env, r: Remote, services: seq<Service>)
    requires RemoveEach(env, r, services).1.Err?
    ensures exists j :: 0 <= j < |services| &&
              PartlyRemoved(RemovedEach(r.kube, services[..j]), RemoveEach(env, r, services).0.kube, services[j], true)
    decreases |services|
  {
    var (r1, removed) := Remove(env, r, services[0], true);
    if removed.Err? {
      RemoveFails(env, r, services[0], true);
      assert RemovedEach(r.kube, services[..0]) == r.kube;
    } else {
      RemoveSucceeds(env, r, services[0], true);
      RemoveEachFails(env, r1, services[1..]);
      var j :| 0 <= j < |services[1..]| &&
               PartlyRemoved(RemovedEach(r1.kube, services[1..][..j]), RemoveEach(env, r1, services[1..]).0.kube, services[1..][j], true);
      assert services[..j + 1][1..] == services[1..][..j];
      assert RemovedEach(r.kube, services[..j + 1]) == RemovedEach(r1.kube, services[1..][..j]);
      assert services[j + 1] == services[1..][j];
    }
  }

  /** Nothing happened, or a prefix of these services was removed completely and the next one in
      part. */
  ghost predicate ClearedInPart(before: Kube, after: Kube, found: seq<Service>) {
    || after == before
    || exists j :: 0 <= j < |found| && PartlyRemoved(RemovedEach(before, found[..j]), after, found[j], true)
  }

  lemma ShutdownFailsInPart(env: Env, r: Remote, node: string)
    requires Shutdown(env, r, node).1.Err?
    ensures ClearedInPart(r.kube, Shutdown(env, r, node).0.kube, LabelledServices(r.kube.serviceOrder, r.kube, node))
  {
    hide RemoveEach, RemovedEach, PartlyRemoved;
    var (r1, listing) := ListServices(env, r, node);
    if listing.Ok? {
      var found := listing.value;
      RemoveEachFails(env, r1, found);
      var j :| 0 <= j < |found| && PartlyRemoved(RemovedEach(r1.kube, found[..j]), RemoveEach(env, r1, found).0.kube, found[j], true);
      assert Shutdown(env, r, node).0 == RemoveEach(env, r1, found).0;
      assert found == LabelledServices(r.kube.serviceOrder, r.kube, node);
      assert PartlyRemoved(RemovedEach(r.kube, found[..j]), Shutdown(env, r, node).0.kube, found[j], true);
    }
  }
}
