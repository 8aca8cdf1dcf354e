/** What the filtered failover listings contain. */
module SelectLaws {
  import opened Basics
  import opened Stores
  import opened CloudSpec
  import opened BalancerSpec

  /** The record at `i` is the first that cannot be read, for this reason. */
  ghost predicate BreaksAt(records: seq<Record>, i: int, error: Error) {
    && 0 <= i < |records| && (forall j :: 0 <= j < i ==> records[j].text.Some? && Parse(records[j].text.value).Some?)
    && if records[i].text.None? then error == NilPointer else Parse(records[i].text.value).None? && error == BadAddress
  }

  /** A listing yields exactly the configured addresses of its family, and it fails exactly
      when some record has no text or one that does not parse. */
  lemma {:induction false} SelectIsExact(records: seq<Record>, family: Family, config: seq<Addr>)
    ensures Select(records, family, config).Ok? <==>
            forall r :: r in records ==> r.text.Some? && Parse(r.text.value).Some?
    ensures Select(records, family, config).Err? ==> exists i :: BreaksAt(records, i, Select(records, family, config).error)
    ensures Select(records, family, config).Ok? ==>
              forall a :: a in Select(records, family, config).value <==>
                          a.family == family && a in config && exists r :: r in records && Parse(r.text.value) == Some(a)
  {
    if records != [] {
      SelectIsExact(records[1..], family, config);
      var found := Select(records, family, config);
      if found.Err? {
        if records[0].text.None? || Parse(records[0].text.value).None? {
          assert BreaksAt(records, 0, found.error);
        } else {
          var i :| BreaksAt(records[1..], i, Select(records[1..], family, config).error);
          assert forall j :: 0 < j < |records| ==> records[j] == records[1..][j - 1];
          assert BreaksAt(records, i + 1, found.error);
        }
      }
      assert forall r :: r in records <==> r == records[0] || r in records[1..];
      if Select(records, family, config).Ok? {
        assert records[0] in records;
      }
    }
  }

  /** Listing order is kept and nothing is dropped or merged: the parts of a listing contribute
      independently, one after the other. */
  lemma {:induction false} SelectInParts(these: seq<Record>, those: seq<Record>, family: Family, config: seq<Addr>)
    ensures var a, b := Select(these, family, config), Select(those, family, config);
            Select(these + those, family, config) == if a.Err? then a else if b.Err? then b else Ok(a.value + b.value)
    decreases |these|
  {
    if these == [] {
      assert these + those == those;
      var b := Select(those, family, config);
      assert b.Ok? ==> [] + b.value == b.value;
    } else {
      assert (these + those)[1..] == these[1..] + those;
      SelectInParts(these[1..], those, family, config);
      var a, b := Select(these[1..], family, config), Select(those, family, config);
      if a.Ok? && b.Ok? && these[0].text.Some? && Parse(these[0].text.value).Some? {
        var addr := Parse(these[0].text.value).value;
        assert ([addr] + a.value) + b.value == [addr] + (a.value + b.value);
      }
    }
  }

  /** Position `i` holds the first server of exactly this name that has an ID, and every server
      before it has a name. */
  ghost predicate FirstNamed(servers: seq<Server>, name: string, i: int) {
    && 0 <= i < |servers| && servers[i].name == Some(name) && servers[i].id.Some?
    && forall j :: 0 <= j < i ==> servers[j].name.Some? && !(servers[j].name.value == name && servers[j].id.Some?)
  }

  /** A name resolves exactly to the first exact match that has an ID; a server without a name
      before it aborts the scan; and the name is unknown exactly if every server has a name and
      none matches. */
  lemma {:induction false} FirstMatchIsFirst(servers: seq<Server>, name: string)
    ensures var found := FirstMatch(servers, name);
            && (forall id :: found == Ok(id) <==> exists i :: FirstNamed(servers, name, i) && servers[i].id == Some(id))
            && (found == Err(UnknownServer) <==>
                  forall s :: s in servers ==> s.name.Some? && !(s.name.value == name && s.id.Some?))
            && (found.Err? ==> found.error == UnknownServer || found.error == NilPointer)
  {
    if servers != [] {
      var rest := servers[1..];
      FirstMatchIsFirst(rest, name);
      assert forall s :: s in servers <==> s == servers[0] || s in rest;
      assert forall j :: 0 < j < |servers| ==> servers[j] == rest[j - 1];
      var stops := servers[0].name.None? || (servers[0].name.value == name && servers[0].id.Some?);
      forall i | 0 < i < |servers|
        ensures FirstNamed(servers, name, i) <==> !stops && FirstNamed(rest, name, i - 1)
      {
        LaterMatch(servers, name, i);
      }
      forall id
        ensures FirstMatch(servers, name) == Ok(id) <==> exists i :: FirstNamed(servers, name, i) && servers[i].id == Some(id)
      {
        if i :| FirstNamed(servers, name, i) && servers[i].id == Some(id) {
          if i > 0 {
            assert FirstNamed(rest, name, i - 1);
          }
        }
        if FirstMatch(servers, name) == Ok(id) {
          if stops {
            assert FirstNamed(servers, name, 0);
          } else {
            var i :| FirstNamed(rest, name, i) && rest[i].id == Some(id);
            assert FirstNamed(servers, name, i + 1);
          }
        }
      }
    }
  }

  lemma LaterMatch(servers: seq<Server>, name: string, i: int)
    requires 0 < i < |servers|
    ensures FirstNamed(servers, name, i) <==>
            servers[0].name.Some? && !(servers[0].name.value == name && servers[0].id.Some?) && FirstNamed(servers[1..], name, i - 1)
  {
    var rest := servers[1..];
    if FirstNamed(rest, name, i - 1) {
      assert forall j :: 0 < j < i ==> servers[j] == rest[j - 1];
    }
    if FirstNamed(servers, name, i) {
      assert forall j :: 0 <= j < i - 1 ==> rest[j] == servers[j + 1];
    }
  }

  lemma FailoversOfFamily(env: Env, config: seq<Addr>, w: World, family: Family, node: Option<string>)
    ensures var addrs := Failovers(env, config, w, family, node).1;
            addrs.Ok? ==> forall a :: a in addrs.value ==> a.family == family && a in config
  {
    var (w1, id) := if node.Some? then LookUp(env, w, node.value) else (w, Ok(0));
    if id.Ok? {
      var server := if node.Some? then Some(id.value) else None;
      var answer := ListFailovers(env, w1.remote, family, server).1;
      if answer.Ok? {
        SelectIsExact(answer.value, family, config);
      }
    }
  }

  lemma HostedOfFamily(env: Env, config: seq<Addr>, w: World, service: Service, node: string)
    ensures var (w1, v4) := Hosted(env, config, w, service, IPv4, node);
            && (v4.Ok? ==> forall a :: a in v4.value ==> a.family.IPv4? && a in config)
            && var v6 := Hosted(env, config, w1, service, IPv6, node).1;
               v6.Ok? ==> forall a :: a in v6.value ==> a.family.IPv6? && a in config
  {
    FailoversOfFamily(env, config, w, IPv4, Some(node));
    FailoversOfFamily(env, config, Hosted(env, config, w, service, IPv4, node).0, IPv6, Some(node));
  }
}
