/** What one routing request sends, and when it counts as a success. */
module RoutingLaws {
  import opened Basics
  import opened Stores
  import opened CloudSpec
  import TaskWait

  ghost predicate Carries(record: Record, text: Text) {
    record.id.Some? && record.text == Some(text)
  }

  /** Position `i` holds the first complete record carrying the text. */
  ghost predicate FirstCarrying(records: seq<Record>, text: Text, i: int) {
    && 0 <= i < |records| && Carries(records[i], text)
    && forall j :: 0 <= j < i ==> !Carries(records[j], text)
  }

  lemma {:induction false} FirstCompleteIsFirst(records: seq<Record>, text: Text)
    ensures FirstComplete(records, text).Some? ==>
              exists i :: FirstCarrying(records, text, i) && records[i].id == FirstComplete(records, text)
    ensures FirstComplete(records, text).None? ==> forall r :: r in records ==> !Carries(r, text)
  {
    if records != [] && !Carries(records[0], text) {
      FirstCompleteIsFirst(records[1..], text);
      if FirstComplete(records, text).Some? {
        var i :| FirstCarrying(records[1..], text, i) && records[1..][i].id == FirstComplete(records, text);
        assert FirstCarrying(records[1..], text, i);
        assert forall j :: 0 < j < |records| ==> records[j] == records[1..][j - 1];
        assert FirstCarrying(records, text, i + 1);
      }
    } else if records != [] {
      assert FirstCarrying(records, text, 0);
    }
  }

  /** The wait answers with one of its own errors, never with "not found". */
  lemma WaitErrors(rounds: TaskWait.Stream)
    requires TaskWait.Decides(rounds)
    ensures TaskWait.Outcome(rounds) != Err(AddressNotFound)
    ensures TaskWait.Outcome(rounds).Ok? <==> TaskWait.SeenFinished(rounds)
    ensures exists k: nat :: TaskWait.EndsWith(rounds, k, TaskWait.Outcome(rounds))
  {
    TaskWait.WaitSucceedsIffFinishedFirst(rounds);
    TaskWait.WaitEndsIff(rounds);
  }

  /** The listing under the lock is answered and holds a complete record of the address. */
  ghost predicate Finds(env: Env, r: Remote, addr: Addr) {
    FateOf(env, r.clock).Answered? &&
    exists rec :: rec in Tick(env, r).scp.Records(addr.family) && Carries(rec, TextOf(addr))
  }

  lemma FindsFirst(env: Env, r: Remote, addr: Addr)
    ensures Finds(env, r, addr) <==>
              FateOf(env, r.clock).Answered? && FirstComplete(Tick(env, r).scp.Records(addr.family), TextOf(addr)).Some?
  {
    hide Tick;
    FirstCompleteIsFirst(Tick(env, r).scp.Records(addr.family), TextOf(addr));
  }

  /** The answer of a routing request, case by case. It succeeds exactly if the listing is answered
      and has the address, and the PATCH is accepted, either without a task ID or with a task
      that was seen FINISHED; an accepted PATCH with a task answers as the wait ends; "not found"
      is the answer exactly if the listing is answered without the address; and everything else
      is a failed call. A PATCH is sent exactly if the listing has the address. */
  lemma RouteAnswers(env: Env, r: Remote, addr: Addr, target: ServerID)
    ensures var (r', answer) := RouteUnderLock(env, r, addr, target);
            var status, rounds := ReplyOf(env, r.clock + 1).status, RoundsOf(env, r.clock + 1);
            && (r'.issued != r.issued <==> Finds(env, r, addr))
            && (answer.Ok? <==>
                  Finds(env, r, addr) &&
                  (status == AcceptedWithoutTask || (status == AcceptedWithTask && TaskWait.SeenFinished(rounds))))
            && (Finds(env, r, addr) && status == AcceptedWithTask ==> exists k: nat :: TaskWait.EndsWith(rounds, k, answer))
            && (Finds(env, r, addr) && status in {NeverArrived, NoAnswer, NotAccepted} ==> answer == Err(CallFailed))
            && (FateOf(env, r.clock).Answered? && !Finds(env, r, addr) <==> answer == Err(AddressNotFound))
            && (!FateOf(env, r.clock).Answered? ==> answer == Err(CallFailed))
  {
    hide TaskWait.Outcome, TaskWait.SeenFinished, TaskWait.EndsWith, TaskWait.Decides, Finds;
    FindsFirst(env, r, addr);
    WaitErrors(RoundsOf(env, r.clock + 1));
    var r' := RouteUnderLock(env, r, addr, target).0;
    assert Finds(env, r, addr) <==> |r'.issued| > |r.issued|;
  }

  /** A routing request sends at most one PATCH. If it sends one, it names the first complete
      record of the listing it just made whose text is the address, and the requested server.
      Success means that PATCH was accepted and, if it came with a task, that the task was
      seen FINISHED; "not found" means exactly that the listing was answered and holds no
      such record, and then nothing was sent. */
  lemma RouteSendsOnePatch(env: Env, r: Remote, addr: Addr, target: ServerID)
    ensures var (r', answer) := RouteUnderLock(env, r, addr, target);
            var records := Tick(env, r).scp.Records(addr.family);
            var reply := ReplyOf(env, r.clock + 1);
            && (r'.issued == r.issued ||
                exists i :: FirstCarrying(records, TextOf(addr), i) &&
                            r'.issued == r.issued + [Patch(addr.family, records[i].id.value, target)])
            && (answer.Ok? ==>
                  && |r'.issued| == |r.issued| + 1
                  && (reply.status.AcceptedWithoutTask? ||
                      (reply.status.AcceptedWithTask? && TaskWait.SeenFinished(RoundsOf(env, r.clock + 1)))))
            && (answer == Err(AddressNotFound) <==>
                  FateOf(env, r.clock).Answered? && forall rec :: rec in records ==> !Carries(rec, TextOf(addr)))
            && (answer == Err(AddressNotFound) ==> r'.issued == r.issued)
  {
    hide TaskWait.Outcome, TaskWait.SeenFinished, TaskWait.EndsWith, TaskWait.Decides;
    RouteAnswers(env, r, addr, target);
    FindsFirst(env, r, addr);
    FirstCompleteIsFirst(Tick(env, r).scp.Records(addr.family), TextOf(addr));
  }

  /******* What a PATCH means for the listings *******/

  /** A listing without the records of one ID. */
  ghost function Without(records: seq<Record>, id: int): seq<Record> {
    if records == [] then []
    else (if records[0].id == Some(id) then [] else [records[0]]) + Without(records[1..], id)
  }

  lemma {:induction false} OthersLose(records: seq<Record>, id: int, target: ServerID, server: ServerID)
    requires server != target
    ensures OnServer(Redirect(records, id, target), server) == Without(OnServer(records, server), id)
    decreases |records|
  {
    if records != [] {
      OthersLose(records[1..], id, target, server);
      assert Redirect(records, id, target)[1..] == Redirect(records[1..], id, target);
      var listed := OnServer(records[1..], server);
      assert ([records[0]] + listed)[1..] == listed && [] + listed == listed;
    }
  }

  /** On the target after the PATCH: it was there and was not named, or it is a named record,
      moved there. */
  ghost predicate NowOn(records: seq<Record>, id: int, target: ServerID, r: Record) {
    || (r in OnServer(records, target) && r.id != Some(id))
    || (r.server == Some(target) && r.id == Some(id) && exists q :: q in records && q.id == r.id && q.text == r.text)
  }

  lemma {:induction false} OnServerMeans(records: seq<Record>, server: ServerID)
    ensures forall r :: r in OnServer(records, server) <==> r in records && r.server == Some(server)
  {
    if records != [] {
      OnServerMeans(records[1..], server);
      assert forall r :: r in records <==> r == records[0] || r in records[1..];
    }
  }

  lemma TargetGains(records: seq<Record>, id: int, target: ServerID)
    ensures forall r :: r in OnServer(Redirect(records, id, target), target) <==> NowOn(records, id, target, r)
  {
    var moved := Redirect(records, id, target);
    OnServerMeans(moved, target);
    OnServerMeans(records, target);
    forall r
      ensures r in moved && r.server == Some(target) <==> NowOn(records, id, target, r)
    {
      if r in moved && r.server == Some(target) {
        var i :| 0 <= i < |moved| && moved[i] == r;
        assert records[i] in records;
      }
      if NowOn(records, id, target, r) {
        if r.id == Some(id) {
          var q :| q in records && q.id == r.id && q.text == r.text;
          var i :| 0 <= i < |records| && records[i] == q;
          assert moved[i] == r;
        } else {
          var i :| 0 <= i < |records| && records[i] == r;
          assert moved[i] == r;
        }
      }
    }
  }

  lemma {:induction false} RestStays(records: seq<Record>, id: int, target: ServerID)
    ensures Without(Redirect(records, id, target), id) == Without(records, id)
    decreases |records|
  {
    if records != [] {
      RestStays(records[1..], id, target);
      assert Redirect(records, id, target)[1..] == Redirect(records[1..], id, target);
    }
  }

  /** After a PATCH every other server's listing has lost exactly the records with its ID, in place;
      the target's listing has exactly those and what it had before; the records with other IDs
      stay as they are, in their order; and of two PATCHes of one ID the later decides alone. */
  lemma PatchRelists(records: seq<Record>, id: int, target: ServerID)
    ensures var moved := Redirect(records, id, target);
            && (forall server :: server != target ==> OnServer(moved, server) == Without(OnServer(records, server), id))
            && (forall r :: r in OnServer(moved, target) <==> NowOn(records, id, target, r))
            && Without(moved, id) == Without(records, id)
            && (forall later :: Redirect(moved, id, later) == Redirect(records, id, later))
  {
    var moved := Redirect(records, id, target);
    forall server | server != target
      ensures OnServer(moved, server) == Without(OnServer(records, server), id)
    {
      OthersLose(records, id, target, server);
    }
    TargetGains(records, id, target);
    RestStays(records, id, target);
  }
}
