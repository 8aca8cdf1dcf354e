/** Merging the addresses of a server and of its operator into those of a node. */
module AddressMerge {
  import opened Basics

  datatype Kind = ExternalIP | InternalIP

  datatype NodeAddress = NodeAddress(kind: Kind, text: Text)

  /** An address of a server. The API may leave out its text, or the netmask (the prefix length,
      for IPv6) that is logged beside it. */
  datatype ServerAddress = ServerAddress(text: Option<Text>, mask: Option<int>)

  /** One address to be merged in; without a text that can be read it ends the merge. */
  datatype Entry = Entry(kind: Kind, text: Option<Text>)

  function External(addrs: seq<ServerAddress>): (es: seq<Entry>)
    ensures |es| == |addrs|
    ensures forall i :: 0 <= i < |addrs| ==> es[i] == Entry(ExternalIP, if addrs[i].mask.Some? then addrs[i].text else None)
  {
    seq(|addrs|, i requires 0 <= i < |addrs| => Entry(ExternalIP, if addrs[i].mask.Some? then addrs[i].text else None))
  }

  function Provided(texts: seq<Text>): (es: seq<Entry>)
    ensures |es| == |texts|
    ensures forall i :: 0 <= i < |texts| ==> es[i] == Entry(InternalIP, Some(texts[i]))
  {
    seq(|texts|, i requires 0 <= i < |texts| => Entry(InternalIP, Some(texts[i])))
  }

  predicate Parses(e: Entry) {
    e.text.Some? && Parse(e.text.value).Some?
  }

  /** The address an entry stands for, in canonical spelling. */
  function Canonically(e: Entry): NodeAddress
    requires Parses(e)
  {
    NodeAddress(e.kind, TextOf(Parse(e.text.value).value))
  }

  ghost function MergeAll(addresses: seq<NodeAddress>, entries: seq<Entry>): Result<seq<NodeAddress>>
    decreases |entries|
  {
    if entries == [] then Ok(addresses)
    else if entries[0].text.None? then Err(NilPointer)
    else if !Parses(entries[0]) then Err(BadAddress)
    else
      var address := Canonically(entries[0]);
      MergeAll(if address in addresses then addresses else addresses + [address], entries[1..])
  }

  /** The entry at `q` is the first that stands for this address. */
  ghost predicate FirstAt(entries: seq<Entry>, q: int, address: NodeAddress) {
    && 0 <= q < |entries|
    && Parses(entries[q]) && Canonically(entries[q]) == address
    && forall p :: 0 <= p < q ==> Parses(entries[p]) ==> Canonically(entries[p]) != address
  }

  ghost predicate AskedFor(entries: seq<Entry>, address: NodeAddress) {
    exists q :: FirstAt(entries, q, address)
  }

  /** The entry at `i` is the first that cannot be merged in, for this reason. */
  ghost predicate BreaksAt(entries: seq<Entry>, i: int, error: Error) {
    && 0 <= i < |entries| && !Parses(entries[i]) && (forall j :: 0 <= j < i ==> Parses(entries[j]))
    && error == if entries[i].text.None? then NilPointer else BadAddress
  }

  /** What was added from position `start` on is new each time. */
  ghost predicate NoRepeats(start: nat, out: seq<NodeAddress>) {
    forall j :: start <= j < |out| ==> out[j] !in out[..j]
  }

  /** What was added was asked for. */
  ghost predicate OnlyAsked(entries: seq<Entry>, start: nat, out: seq<NodeAddress>) {
    forall j :: start <= j < |out| ==> AskedFor(entries, out[j])
  }

  /** What was added stands in the order in which it was first asked for. */
  ghost predicate InOrder(entries: seq<Entry>, start: nat, out: seq<NodeAddress>) {
    forall i, j, p, q :: start <= i < j < |out| && FirstAt(entries, p, out[i]) && FirstAt(entries, q, out[j]) ==> p < q
  }

  /** The result is the ordered union: the existing addresses come first and untouched; after
      them come exactly the addresses that are wanted and were missing, each once, in the
      order in which they are first asked for. It fails exactly when an entry has no address. */
  lemma {:induction false} MergeIsOrderedUnion(addresses: seq<NodeAddress>, entries: seq<Entry>)
    ensures MergeAll(addresses, entries).Ok? <==> forall e :: e in entries ==> Parses(e)
    ensures MergeAll(addresses, entries).Err? ==> exists i :: BreaksAt(entries, i, MergeAll(addresses, entries).error)
    ensures MergeAll(addresses, entries).Ok? ==>
              var out := MergeAll(addresses, entries).value;
              && addresses <= out
              && (forall e :: e in entries ==> Canonically(e) in out)
              && NoRepeats(|addresses|, out)
              && OnlyAsked(entries, |addresses|, out)
              && InOrder(entries, |addresses|, out)
    decreases |entries|
  {
    if entries != [] {
      var e, rest := entries[0], entries[1..];
      assert forall f :: f in entries <==> f == e || f in rest;
      if Parses(e) {
        var address := Canonically(e);
        var next := if address in addresses then addresses else addresses + [address];
        MergeIsOrderedUnion(next, rest);
        if MergeAll(next, rest).Ok? {
          var out := MergeAll(next, rest).value;
          assert MergeAll(addresses, entries).value == out;
          PrefixMembers(next, out);
          MergeStep(addresses, entries, next, out);
          assert addresses <= next <= out;
        }
        BreaksLater(addresses, entries, next);
      } else {
        assert e in entries;
        assert BreaksAt(entries, 0, MergeAll(addresses, entries).error);
      }
    }
  }

  lemma BreaksLater(addresses: seq<NodeAddress>, entries: seq<Entry>, next: seq<NodeAddress>)
    requires entries != [] && Parses(entries[0])
    requires MergeAll(next, entries[1..]).Err? ==> exists i :: BreaksAt(entries[1..], i, MergeAll(next, entries[1..]).error)
    requires MergeAll(addresses, entries) == MergeAll(next, entries[1..])
    ensures MergeAll(addresses, entries).Err? ==> exists i :: BreaksAt(entries, i, MergeAll(addresses, entries).error)
  {
    if MergeAll(addresses, entries).Err? {
      var i :| BreaksAt(entries[1..], i, MergeAll(next, entries[1..]).error);
      assert forall j :: 0 < j < |entries| ==> entries[j] == entries[1..][j - 1];
      assert BreaksAt(entries, i + 1, MergeAll(addresses, entries).error);
    }
  }

  lemma PrefixMembers<T>(small: seq<T>, large: seq<T>)
    requires small <= large
    ensures forall x :: x in small ==> x in large
  {
    assert forall k :: 0 <= k < |small| ==> small[k] == large[k];
  }

  /** The step of the induction: one more entry in front. */
  lemma MergeStep(addresses: seq<NodeAddress>, entries: seq<Entry>, next: seq<NodeAddress>, out: seq<NodeAddress>)
    requires entries != [] && Parses(entries[0])
    requires next == if Canonically(entries[0]) in addresses then addresses else addresses + [Canonically(entries[0])]
    requires next <= out
    requires NoRepeats(|next|, out) && OnlyAsked(entries[1..], |next|, out) && InOrder(entries[1..], |next|, out)
    ensures NoRepeats(|addresses|, out) && OnlyAsked(entries, |addresses|, out) && InOrder(entries, |addresses|, out)
  {
    var first := Canonically(entries[0]);
    assert first in next;
    assert forall k :: 0 <= k < |next| ==> out[k] == next[k];
    forall j | |addresses| <= j < |out|
      ensures AskedFor(entries, out[j])
    {
      if j < |next| {
        assert FirstAt(entries, 0, out[j]);
      } else {
        LaterEntry(entries, first, next, out, j);
      }
    }
    assert |addresses| < |next| ==> out[..|addresses|] == addresses;
    forall i, j, p, q | |addresses| <= i < j < |out| && FirstAt(entries, p, out[i]) && FirstAt(entries, q, out[j])
      ensures p < q
    {
      LaterEntry(entries, first, next, out, j);
      ShiftFirst(entries, q, out[j]);
      if i < |next| {
        assert out[i] == first;
        assert FirstAt(entries, 0, out[i]);
      } else {
        LaterEntry(entries, first, next, out, i);
        ShiftFirst(entries, p, out[i]);
      }
    }
  }

  lemma ShiftFirst(entries: seq<Entry>, q: int, address: NodeAddress)
    requires entries != [] && Parses(entries[0]) && Canonically(entries[0]) != address
    requires FirstAt(entries, q, address)
    ensures FirstAt(entries[1..], q - 1, address)
  {
    forall p | 0 <= p < q - 1
      ensures Parses(entries[1..][p]) ==> Canonically(entries[1..][p]) != address
    {
      assert entries[1..][p] == entries[p + 1];
    }
  }

  /** An address added after the first entry differs from it and is first asked for later. */
  lemma LaterEntry(entries: seq<Entry>, first: NodeAddress, next: seq<NodeAddress>, out: seq<NodeAddress>, j: int)
    requires entries != [] && Parses(entries[0]) && first == Canonically(entries[0])
    requires first in next && next <= out && |next| <= j < |out|
    requires out[j] !in out[..j]
    requires AskedFor(entries[1..], out[j])
    ensures out[j] != first && AskedFor(entries, out[j])
  {
    var k :| 0 <= k < |next| && next[k] == first;
    assert out[..j][k] == first;
    var q :| FirstAt(entries[1..], q, out[j]);
    assert FirstAt(entries[1..], q, out[j]);
    assert entries[q + 1] == entries[1..][q];
    forall p | 0 <= p < q + 1
      ensures Parses(entries[p]) ==> Canonically(entries[p]) != out[j]
    {
      if p > 0 {
        assert entries[p] == entries[1..][p - 1];
      }
    }
    assert FirstAt(entries, q + 1, out[j]);
  }

  lemma {:induction false} NothingToAdd(addresses: seq<NodeAddress>, entries: seq<Entry>)
    requires forall e :: e in entries ==> Parses(e) && Canonically(e) in addresses
    ensures MergeAll(addresses, entries) == Ok(addresses)
    decreases |entries|
  {
    if entries != [] {
      assert entries[0] in entries;
      NothingToAdd(addresses, entries[1..]);
    }
  }

  /** Merging the same addresses into a merged list changes nothing. */
  lemma MergeIsIdempotent(addresses: seq<NodeAddress>, entries: seq<Entry>)
    requires MergeAll(addresses, entries).Ok?
    ensures MergeAll(MergeAll(addresses, entries).value, entries) == MergeAll(addresses, entries)
  {
    MergeIsOrderedUnion(addresses, entries);
    NothingToAdd(MergeAll(addresses, entries).value, entries);
  }

  lemma {:induction false} MergeInParts(addresses: seq<NodeAddress>, these: seq<Entry>, those: seq<Entry>)
    ensures MergeAll(addresses, these + those) ==
            var first := MergeAll(addresses, these);
            if first.Ok? then MergeAll(first.value, those) else first
    decreases |these|
  {
    if these == [] {
      assert these + those == those;
    } else {
      assert (these + those)[1..] == these[1..] + those;
      var address := if Parses(these[0]) then [Canonically(these[0])] else [];
      MergeInParts(if address == [] || address[0] in addresses then addresses else addresses + address, these[1..], those);
    }
  }

  ghost function AllEntries(v4: seq<ServerAddress>, v6: seq<ServerAddress>, provided: seq<Text>): seq<Entry> {
    External(v4) + External(v6) + Provided(provided)
  }

  /** The loops over the IPv4 and over the IPv6 addresses of the server. */
  method MergeServerAddresses(existing: seq<NodeAddress>, addrs: seq<ServerAddress>)
    returns (merged: Result<seq<NodeAddress>>)
    ensures merged == MergeAll(existing, External(addrs))
  {
    ghost var entries := External(addrs);
    var addresses := existing;
    for i := 0 to |addrs|
      invariant MergeAll(addresses, entries[i..]) == MergeAll(existing, entries)
    {
      assert entries[i..][1..] == entries[i + 1..];
      if addrs[i].text.None? || addrs[i].mask.None? {
        return Err(NilPointer);
      }
      var addr := Parse(addrs[i].text.value);
      if addr.None? {
        return Err(BadAddress);
      }
      var address := NodeAddress(ExternalIP, TextOf(addr.value));
      if address !in addresses {
        addresses := addresses + [address];
      }
    }
    return Ok(addresses);
  }

  /** The loop over the provided IPs of the annotation. */
  method MergeProvided(existing: seq<NodeAddress>, texts: seq<Text>) returns (merged: Result<seq<NodeAddress>>)
    ensures merged == MergeAll(existing, Provided(texts))
  {
    ghost var entries := Provided(texts);
    var addresses := existing;
    for i := 0 to |texts|
      invariant MergeAll(addresses, entries[i..]) == MergeAll(existing, entries)
    {
      assert entries[i..][1..] == entries[i + 1..];
      var addr := Parse(texts[i]);
      if addr.None? {
        return Err(BadAddress);
      }
      var address := NodeAddress(InternalIP, TextOf(addr.value));
      if address !in addresses {
        addresses := addresses + [address];
      }
    }
    return Ok(addresses);
  }

  /******* What InstanceMetadata reports *******/

  /** An address of the server can be used: its text and mask are there, and the text parses. */
  ghost predicate Usable(a: ServerAddress) {
    a.text.Some? && a.mask.Some? && Parse(a.text.value).Some?
  }

  /** The node address with this text's canonical spelling. */
  ghost predicate Spells(address: NodeAddress, kind: Kind, text: Text) {
    address.kind == kind && Parse(text).Some? && address.text == Canonical(Parse(text).value)
  }

  /** The server address at `i` is the first of the list that gives this node address. */
  ghost predicate FirstFromServer(addrs: seq<ServerAddress>, i: int, address: NodeAddress) {
    && 0 <= i < |addrs| && addrs[i].text.Some? && Spells(address, ExternalIP, addrs[i].text.value)
    && forall k :: 0 <= k < i && addrs[k].text.Some? ==> !Spells(address, ExternalIP, addrs[k].text.value)
  }

  ghost predicate FirstProvided(texts: seq<Text>, i: int, address: NodeAddress) {
    && 0 <= i < |texts| && Spells(address, InternalIP, texts[i])
    && forall k :: 0 <= k < i ==> !Spells(address, InternalIP, texts[k])
  }

  ghost predicate Present(out: seq<NodeAddress>, kind: Kind, text: Text) {
    exists a :: a in out && Spells(a, kind, text)
  }

  ghost predicate Gives(addrs: seq<ServerAddress>, address: NodeAddress) {
    exists p :: FirstFromServer(addrs, p, address)
  }

  ghost predicate GivesProvided(texts: seq<Text>, address: NodeAddress) {
    exists p :: FirstProvided(texts, p, address)
  }

  /** Every server address is there. */
  ghost predicate AllThere(addrs: seq<ServerAddress>, out: seq<NodeAddress>) {
    forall i :: 0 <= i < |addrs| ==> addrs[i].text.Some? && Present(out, ExternalIP, addrs[i].text.value)
  }

  ghost predicate AllProvidedThere(texts: seq<Text>, out: seq<NodeAddress>) {
    forall i :: 0 <= i < |texts| ==> Present(out, InternalIP, texts[i])
  }

  /** From position `m` up to `n` stand addresses of the server's list, in its order. */
  ghost predicate ServerSection(addrs: seq<ServerAddress>, out: seq<NodeAddress>, m: int, n: int) {
    && 0 <= m <= n <= |out|
    && (forall j :: m <= j < n ==> Gives(addrs, out[j]))
    && (forall i, j, p, q :: m <= i < j < n && FirstFromServer(addrs, p, out[i]) && FirstFromServer(addrs, q, out[j]) ==> p < q)
  }

  ghost predicate ProvidedSection(texts: seq<Text>, out: seq<NodeAddress>, m: int, n: int) {
    && 0 <= m <= n <= |out|
    && (forall j :: m <= j < n ==> GivesProvided(texts, out[j]))
    && (forall i, j, p, q :: m <= i < j < n && FirstProvided(texts, p, out[i]) && FirstProvided(texts, q, out[j]) ==> p < q)
  }

  /** The merged list: the existing addresses come first and untouched; all addresses of the server
      and all provided ones are there in canonical spelling; nothing was added twice; and what was
      added comes from the IPv4 addresses, then from the IPv6 addresses, then from the provided
      ones, each in the order of its list. */
  ghost predicate IsMerged(existing: seq<NodeAddress>, v4: seq<ServerAddress>, v6: seq<ServerAddress>, provided: seq<Text>, out: seq<NodeAddress>) {
    && existing <= out
    && AllThere(v4, out) && AllThere(v6, out) && AllProvidedThere(provided, out)
    && NoRepeats(|existing|, out)
    && exists m, n :: ServerSection(v4, out, |existing|, m) && ServerSection(v6, out, m, n) && ProvidedSection(provided, out, n, |out|)
  }

  /** One merge of server addresses. */
  lemma ExternalMerge(existing: seq<NodeAddress>, addrs: seq<ServerAddress>)
    ensures var merged := MergeAll(existing, External(addrs));
            && (merged.Ok? <==> forall i :: 0 <= i < |addrs| ==> Usable(addrs[i]))
            && (merged.Ok? ==>
                  && existing <= merged.value && AllThere(addrs, merged.value) && NoRepeats(|existing|, merged.value)
                  && ServerSection(addrs, merged.value, |existing|, |merged.value|))
  {
    var entries := External(addrs);
    MergeIsOrderedUnion(existing, entries);
    assert forall i :: 0 <= i < |addrs| ==> entries[i] in entries && (Parses(entries[i]) <==> Usable(addrs[i]));
    if MergeAll(existing, entries).Ok? {
      var out := MergeAll(existing, entries).value;
      forall i | 0 <= i < |addrs|
        ensures Present(out, ExternalIP, addrs[i].text.value)
      {
        assert Canonically(entries[i]) in out;
        assert Spells(Canonically(entries[i]), ExternalIP, addrs[i].text.value);
      }
      forall p, a
        ensures FirstFromServer(addrs, p, a) <==> FirstAt(entries, p, a)
      {
        assert forall k :: 0 <= k < |addrs| ==> (Spells(a, ExternalIP, addrs[k].text.value) <==> Canonically(entries[k]) == a);
      }
      forall j | |existing| <= j < |out|
        ensures Gives(addrs, out[j])
      {
        assert AskedFor(entries, out[j]);
        var q :| FirstAt(entries, q, out[j]);
        assert FirstFromServer(addrs, q, out[j]);
      }
      forall i, j, p, q | |existing| <= i < j < |out| && FirstFromServer(addrs, p, out[i]) && FirstFromServer(addrs, q, out[j])
        ensures p < q
      {
        assert FirstAt(entries, p, out[i]) && FirstAt(entries, q, out[j]);
      }
    }
  }

  /** One merge of provided texts. */
  lemma ProvidedMerge(existing: seq<NodeAddress>, texts: seq<Text>)
    ensures var merged := MergeAll(existing, Provided(texts));
            && (merged.Ok? <==> forall i :: 0 <= i < |texts| ==> Parse(texts[i]).Some?)
            && (merged.Ok? ==>
                  && existing <= merged.value && AllProvidedThere(texts, merged.value) && NoRepeats(|existing|, merged.value)
                  && ProvidedSection(texts, merged.value, |existing|, |merged.value|))
  {
    var entries := Provided(texts);
    MergeIsOrderedUnion(existing, entries);
    assert forall i :: 0 <= i < |texts| ==> entries[i] in entries && (Parses(entries[i]) <==> Parse(texts[i]).Some?);
    if MergeAll(existing, entries).Ok? {
      var out := MergeAll(existing, entries).value;
      forall i | 0 <= i < |texts|
        ensures Present(out, InternalIP, texts[i])
      {
        assert Canonically(entries[i]) in out;
        assert Spells(Canonically(entries[i]), InternalIP, texts[i]);
      }
      forall p, a
        ensures FirstProvided(texts, p, a) <==> FirstAt(entries, p, a)
      {
        assert forall k :: 0 <= k < |texts| ==> (Spells(a, InternalIP, texts[k]) <==> Canonically(entries[k]) == a);
      }
      forall j | |existing| <= j < |out|
        ensures GivesProvided(texts, out[j])
      {
        assert AskedFor(entries, out[j]);
        var q :| FirstAt(entries, q, out[j]);
        assert FirstProvided(texts, q, out[j]);
      }
      forall i, j, p, q | |existing| <= i < j < |out| && FirstProvided(texts, p, out[i]) && FirstProvided(texts, q, out[j])
        ensures p < q
      {
        assert FirstAt(entries, p, out[i]) && FirstAt(entries, q, out[j]);
      }
    }
  }

  lemma ThereLater(addrs: seq<ServerAddress>, small: seq<NodeAddress>, large: seq<NodeAddress>)
    requires small <= large && AllThere(addrs, small)
    ensures AllThere(addrs, large)
  {
    PrefixMembers(small, large);
    forall i | 0 <= i < |addrs|
      ensures Present(large, ExternalIP, addrs[i].text.value)
    {
      assert Present(small, ExternalIP, addrs[i].text.value);
      var a :| a in small && Spells(a, ExternalIP, addrs[i].text.value);
    }
  }

  lemma SectionLater(addrs: seq<ServerAddress>, small: seq<NodeAddress>, large: seq<NodeAddress>, m: int, n: int)
    requires small <= large && ServerSection(addrs, small, m, n)
    ensures ServerSection(addrs, large, m, n)
  {
    hide FirstFromServer;
    assert forall j :: 0 <= j < |small| ==> large[j] == small[j];
    forall j | m <= j < n
      ensures Gives(addrs, large[j])
    {
      assert Gives(addrs, small[j]);
    }
    forall i, j, p, q | m <= i < j < n && FirstFromServer(addrs, p, large[i]) && FirstFromServer(addrs, q, large[j])
      ensures p < q
    {
      assert FirstFromServer(addrs, p, small[i]) && FirstFromServer(addrs, q, small[j]);
    }
  }

  lemma NoRepeatsJoin(start: nat, small: seq<NodeAddress>, large: seq<NodeAddress>)
    requires small <= large && NoRepeats(start, small) && NoRepeats(|small|, large)
    ensures NoRepeats(start, large)
  {
    forall j | start <= j < |large|
      ensures large[j] !in large[..j]
    {
      if j < |small| {
        assert large[j] == small[j] && large[..j] == small[..j];
      }
    }
  }

  /** The three merges, one after the other, make up the whole. */
  lemma SectionsJoin(existing: seq<NodeAddress>, v4: seq<ServerAddress>, v6: seq<ServerAddress>, provided: seq<Text>,
                     a: seq<NodeAddress>, b: seq<NodeAddress>, out: seq<NodeAddress>)
    requires MergeAll(existing, External(v4)) == Ok(a) && MergeAll(a, External(v6)) == Ok(b)
    requires MergeAll(b, Provided(provided)) == Ok(out)
    ensures IsMerged(existing, v4, v6, provided, out)
  {
    hide AllThere, AllProvidedThere, NoRepeats, ServerSection, ProvidedSection, MergeAll;
    ExternalMerge(existing, v4);
    ExternalMerge(a, v6);
    ProvidedMerge(b, provided);
    assert existing <= a <= b <= out;
    ThereLater(v4, a, out);
    ThereLater(v6, b, out);
    SectionLater(v4, a, out, |existing|, |a|);
    SectionLater(v6, b, out, |a|, |b|);
    NoRepeatsJoin(|existing|, a, b);
    NoRepeatsJoin(|existing|, b, out);
  }

  /** The address loops of InstanceMetadata, over the addresses of the server and those of the
      provided-IP annotation (none without the annotation). */
  method MergeAddresses(existing: seq<NodeAddress>, v4: seq<ServerAddress>, v6: seq<ServerAddress>, provided: seq<Text>)
    returns (merged: Result<seq<NodeAddress>>)
    ensures merged == MergeAll(existing, AllEntries(v4, v6, provided))
    ensures merged.Ok? <==>
              && (forall i :: 0 <= i < |v4| ==> Usable(v4[i]))
              && (forall i :: 0 <= i < |v6| ==> Usable(v6[i]))
              && (forall i :: 0 <= i < |provided| ==> Parse(provided[i]).Some?)
    ensures merged.Ok? ==> IsMerged(existing, v4, v6, provided, merged.value)
  {
    MergeInParts(existing, External(v4) + External(v6), Provided(provided));
    MergeInParts(existing, External(v4), External(v6));
    ExternalMerge(existing, v4);
    merged := MergeServerAddresses(existing, v4);
    if merged.Err? {
      return;
    }
    var afterV4 := merged.value;
    ExternalMerge(afterV4, v6);
    merged := MergeServerAddresses(afterV4, v6);
    if merged.Err? {
      return;
    }
    var afterV6 := merged.value;
    ProvidedMerge(afterV6, provided);
    merged := MergeProvided(afterV6, provided);
    if merged.Ok? {
      SectionsJoin(existing, v4, v6, provided, afterV4, afterV6, merged.value);
    }
  }
}
