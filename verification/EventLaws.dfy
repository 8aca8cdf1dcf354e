/** Counting and searching in the history of a call. */
module EventLaws {
  import opened Basics
  import opened Stores
  import opened CloudSpec

  /** What was observed and done between two worlds. */
  ghost function New(w: World, w': World): seq<Event>
    requires w.log <= w'.log
  {
    w'.log[|w.log|..]
  }

  lemma NewChains(w: World, w1: World, w2: World)
    requires w.log <= w1.log <= w2.log
    ensures w.log <= w2.log && New(w, w2) == New(w, w1) + New(w1, w2)
  {
    assert w1.log == w2.log[..|w1.log|];
    assert w.log == w2.log[..|w.log|];
  }

  /** The last attempt at routing an address: where to, and whether it succeeded. */
  ghost function LastRoute(events: seq<Event>, addr: Addr): Option<(ServerID, bool)> {
    if events == [] then None
    else
      var last := events[|events| - 1];
      if last.Routed? && last.addr == addr then Some((last.target, last.ok))
      else LastRoute(events[..|events| - 1], addr)
  }

  lemma {:induction false} LastRouteOfParts(these: seq<Event>, those: seq<Event>, addr: Addr)
    ensures LastRoute(these + those, addr) ==
            if LastRoute(those, addr).Some? then LastRoute(those, addr) else LastRoute(these, addr)
    decreases |those|
  {
    if those == [] {
      assert these + those == these;
    } else {
      assert (these + those)[..|these + those| - 1] == these + those[..|those| - 1];
      LastRouteOfParts(these, those[..|those| - 1], addr);
    }
  }

  lemma {:induction false} NoRoute(events: seq<Event>, addr: Addr)
    requires forall e :: e in events && e.Routed? ==> e.addr != addr
    ensures LastRoute(events, addr) == None
  {
    if events != [] {
      assert events[|events| - 1] in events;
      NoRoute(events[..|events| - 1], addr);
    }
  }

  /** How many candidate addresses were listed for routing. */
  ghost function Candidates(events: seq<Event>): nat {
    if events == [] then 0
    else (if events[0].Listed? && events[0].server.None? then |events[0].addrs| else 0) + Candidates(events[1..])
  }

  /** How many routings of a family succeeded. */
  ghost function Successes(events: seq<Event>, family: Family): nat {
    if events == [] then 0
    else (if events[0].Routed? && events[0].ok && events[0].addr.family == family then 1 else 0) + Successes(events[1..], family)
  }

  lemma {:induction false} CountsOfParts(these: seq<Event>, those: seq<Event>, family: Family)
    ensures Candidates(these + those) == Candidates(these) + Candidates(those)
    ensures Successes(these + those, family) == Successes(these, family) + Successes(those, family)
    decreases |these|
  {
    if these == [] {
      assert these + those == those;
    } else {
      assert (these + those)[1..] == these[1..] + those;
      CountsOfParts(these[1..], those, family);
    }
  }

  /** The events of a candidate list that failed to route throughout. */
  ghost function Failures(addrs: seq<Addr>, target: ServerID): (events: seq<Event>)
    ensures |events| == |addrs|
    ensures forall i :: 0 <= i < |addrs| ==> events[i] == Routed(addrs[i], target, false)
  {
    seq(|addrs|, i requires 0 <= i < |addrs| => Routed(addrs[i], target, false))
  }

  lemma {:induction false} FailuresCount(addrs: seq<Addr>, target: ServerID, family: Family)
    ensures Candidates(Failures(addrs, target)) == 0
    ensures Successes(Failures(addrs, target), family) == 0
    decreases |addrs|
  {
    if addrs != [] {
      assert Failures(addrs, target)[1..] == Failures(addrs[1..], target);
      FailuresCount(addrs[1..], target, family);
    }
  }
}
