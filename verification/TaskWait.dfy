/** Waiting for an asynchronous SCP task, as "answer by the first decisive event". */
module TaskWait {
  import opened Basics

  datatype TaskState = CANCELED | ERROR | FINISHED | PENDING | ROLLBACK | RUNNING | WAITING_FOR_CANCEL

  /** What one poll of the task answers. */
  datatype Poll =
    | NoAnswer                             // transport error
    | BadAnswer                            // status other than 200, or no body
    | Reported(state: Option<TaskState>)

  /** One round of the loop: a poll, and whether the pause after it was cut short by the
      cancelled context. */
  datatype Round = Round(poll: Poll, cancelled: bool)

  /** A finite or infinite wait is a stream of rounds. */
  type Stream = nat -> Round

  function At(s: Stream, k: nat): Round {
    s(k)
  }

  predicate Terminal(s: TaskState) {
    s.FINISHED? || s.ERROR? || s.CANCELED?
  }

  predicate Decisive(r: Round) {
    || r.poll.NoAnswer?
    || r.poll.BadAnswer?
    || (r.poll.Reported? && r.poll.state.Some? && Terminal(r.poll.state.value))
    || r.cancelled
  }

  /** The answer a decisive round gives. */
  function Verdict(r: Round): Result<()>
    requires Decisive(r)
  {
    match r.poll
    case NoAnswer => Err(CallFailed)
    case BadAnswer => Err(CallFailed)
    case Reported(Some(FINISHED)) => Ok(())
    case Reported(Some(ERROR)) => Err(TaskFailed)
    case Reported(Some(CANCELED)) => Err(TaskFailed)
    case Reported(_) => Err(Cancelled)
  }

  ghost predicate DecidesAt(s: Stream, k: nat) {
    Decisive(At(s, k)) && forall j: nat :: j < k ==> !Decisive(At(s, j))
  }

  /** Some round decides, at a finite position. */
  ghost predicate Decides(s: Stream) {
    exists k: nat :: Decisive(At(s, k))
  }

  lemma {:induction false} FirstDecisive(s: Stream, k: nat)
    requires Decisive(At(s, k))
    ensures exists first: nat :: first <= k && DecidesAt(s, first)
    decreases k
  {
    if j: nat :| j < k && Decisive(At(s, j)) {
      FirstDecisive(s, j);
    } else {
      assert DecidesAt(s, k);
    }
  }

  /** The answer of the whole wait: that of its first decisive round. */
  ghost function Outcome(s: Stream): Result<()>
    requires Decides(s)
  {
    var k: nat :| Decisive(At(s, k));
    FirstDecisive(s, k);
    var first: nat :| DecidesAt(s, first);
    Verdict(At(s, first))
  }

  lemma OutcomeIsFirst(s: Stream, first: nat)
    requires DecidesAt(s, first)
    ensures Decides(s) && Outcome(s) == Verdict(At(s, first))
  {
    assert Decisive(At(s, first));
    forall f: nat | DecidesAt(s, f)
      ensures f == first
    {
      assert Decisive(At(s, f));
    }
  }

  /** A round after which the wait goes on: the poll was answered with no state or with one that is
      not final, and the pause was not cut short. */
  ghost predicate GoesOn(r: Round) {
    && r.poll.Reported? && !r.cancelled
    && (r.poll.state.None? || r.poll.state.value in {PENDING, RUNNING, WAITING_FOR_CANCEL, ROLLBACK})
  }

  /** Some round does not let the wait go on. */
  ghost predicate Ends(s: Stream) {
    exists k: nat :: !GoesOn(At(s, k))
  }

  /** The round at `k` is the first that does not let the wait go on. */
  ghost predicate EndsAt(s: Stream, k: nat) {
    !GoesOn(At(s, k)) && forall j: nat :: j < k ==> GoesOn(At(s, j))
  }

  /** The first round after which the wait does not go on ends it, with this answer. */
  ghost predicate EndsWith(s: Stream, k: nat, answer: Result<()>) {
    && (forall j: nat :: j < k ==> GoesOn(At(s, j)))
    && match At(s, k).poll
       case NoAnswer => answer == Err(CallFailed)
       case BadAnswer => answer == Err(CallFailed)
       case Reported(Some(FINISHED)) => answer == Ok(())
       case Reported(Some(ERROR)) => answer == Err(TaskFailed)
       case Reported(Some(CANCELED)) => answer == Err(TaskFailed)
       case Reported(_) => At(s, k).cancelled && answer == Err(Cancelled)
  }

  /** Every round either lets the wait go on or ends it at once, event by event; so a wait ends
      exactly if some round does not let it go on, and its answer is what the first such round
      calls for. */
  lemma WaitEndsIff(s: Stream)
    ensures Decides(s) <==> Ends(s)
    ensures forall k: nat :: DecidesAt(s, k) <==> EndsAt(s, k)
    ensures Decides(s) ==> forall k: nat, answer :: EndsWith(s, k, answer) ==> Outcome(s) == answer
    ensures Decides(s) ==> exists k: nat :: EndsWith(s, k, Outcome(s))
  {
    assert forall k: nat :: Decisive(At(s, k)) <==> !GoesOn(At(s, k));
    if Decides(s) {
      var d: nat :| Decisive(At(s, d));
      FirstDecisive(s, d);
      var first: nat :| DecidesAt(s, first);
      OutcomeIsFirst(s, first);
      assert EndsWith(s, first, Outcome(s));
      forall k: nat, answer | EndsWith(s, k, answer)
        ensures Outcome(s) == answer
      {
        assert DecidesAt(s, k);
        OutcomeIsFirst(s, k);
      }
    }
  }

  /** The round that ended the wait saw the task FINISHED. */
  ghost predicate SeenFinished(s: Stream) {
    exists k: nat :: EndsAt(s, k) && At(s, k).poll == Reported(Some(FINISHED))
  }

  /** The wait succeeds exactly when some task poll reported FINISHED and nothing before it
      was decisive; no other round ever makes it succeed. */
  lemma WaitSucceedsIffFinishedFirst(s: Stream)
    requires Decides(s)
    ensures Outcome(s).Ok? <==> SeenFinished(s)
  {
    WaitEndsIff(s);
    var k: nat :| Decisive(At(s, k));
    FirstDecisive(s, k);
    var first: nat :| DecidesAt(s, first);
    OutcomeIsFirst(s, first);
    if j: nat :| EndsAt(s, j) && At(s, j).poll == Reported(Some(FINISHED)) {
      OutcomeIsFirst(s, j);
    }
  }

  /** The round that ended the wait reported this terminal state. */
  ghost predicate SeenIn(s: Stream, state: TaskState) {
    exists k: nat :: EndsAt(s, k) && At(s, k).poll == Reported(Some(state)) && state in {FINISHED, ERROR, CANCELED}
  }

  /** The terminal state in which the wait saw the task, if it ended by seeing one. */
  ghost function EndState(s: Stream): (state: Option<TaskState>)
    ensures state.Some? ==> SeenIn(s, state.value)
    ensures state.None? ==> forall t :: !SeenIn(s, t)
  {
    if t :| SeenIn(s, t) then Some(t) else None
  }

  /** What the round that ends the wait shows settles both the answer and the end state. */
  lemma EndStateIsFirst(s: Stream, first: nat)
    requires EndsAt(s, first)
    ensures var poll := At(s, first).poll;
            EndState(s) == if poll.Reported? && poll.state.Some? && poll.state.value in {FINISHED, ERROR, CANCELED}
                           then poll.state else None
    ensures Decides(s) && (Outcome(s).Ok? <==> EndState(s) == Some(FINISHED))
    ensures Outcome(s) == Err(TaskFailed) <==> EndState(s) == Some(ERROR) || EndState(s) == Some(CANCELED)
  {
    WaitEndsIff(s);
    OutcomeIsFirst(s, first);
    forall f: nat | EndsAt(s, f)
      ensures f == first
    {
      assert !GoesOn(At(s, f));
    }
    var poll := At(s, first).poll;
    if poll.Reported? && poll.state.Some? && poll.state.value in {FINISHED, ERROR, CANCELED} {
      assert SeenIn(s, poll.state.value);
    }
  }

  /** Rounds that leave the task open (no state, or PENDING, RUNNING, WAITING_FOR_CANCEL or
      ROLLBACK) never influence the answer: any number of them may be put in front. */
  lemma {:induction false} OpenRoundsNeverDecide(s: Stream, opening: nat, late: Stream)
    requires forall j: nat :: j < opening ==> GoesOn(At(s, j))
    requires forall j: nat :: At(s, opening + j) == At(late, j)
    requires Decides(late)
    ensures Decides(s) && Outcome(s) == Outcome(late)
  {
    var k: nat :| Decisive(At(late, k));
    FirstDecisive(late, k);
    var first: nat :| DecidesAt(late, first);
    assert At(s, opening + first) == At(late, first);
    OutcomeIsFirst(late, first);
    assert DecidesAt(s, opening + first) by {
      forall j: nat | j < opening + first
        ensures !Decisive(At(s, j))
      {
        if opening <= j {
          var rest: nat := j - opening;
          assert At(s, opening + rest) == At(late, rest);
        }
      }
    }
    OutcomeIsFirst(s, opening + first);
  }

  /** The polling loop. It ends because some round of the stream decides. */
  method WaitForTask(rounds: Stream) returns (answer: Result<()>)
    requires Ends(rounds)
    ensures exists k: nat :: EndsWith(rounds, k, answer)
    ensures Decides(rounds) && answer == Outcome(rounds)
    ensures answer.Ok? <==> SeenFinished(rounds)
  {
    WaitEndsIff(rounds);
    ghost var bound: nat :| Decisive(At(rounds, bound));
    var i: nat := 0;
    while true
      invariant forall j: nat :: j < i ==> !Decisive(At(rounds, j))
      decreases bound + 1 - i
    {
      assert i <= bound;
      var round := At(rounds, i);
      ghost var decided := Decisive(round);
      if decided {
        OutcomeIsFirst(rounds, i);
        WaitSucceedsIffFinishedFirst(rounds);
      }
      match round.poll {
        case NoAnswer =>
          return Err(CallFailed);
        case BadAnswer =>
          return Err(CallFailed);
        case Reported(state) =>
          if state.Some? {
            match state.value {
              case FINISHED => return Ok(());
              case ERROR => return Err(TaskFailed);
              case CANCELED => return Err(TaskFailed);
              case _ =>
            }
          }
      }
      if round.cancelled {
        return Err(Cancelled);
      }
      i := i + 1;
    }
  }
}
