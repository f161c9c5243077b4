/** When the retry loop goes on and when it returns, told from the turns and the clock. */
module RetryLaws {
  import opened Prelude
  import opened RetryLoop

  /** An answer the caller can use: a refused one counts unless refusals are terminal. */
  predicate Answers(s: Settings, o: Outcome) {
    o.Good? && !(o.refused && !s.retryRefusal)
  }

  /** A config error, and a truncation or a refusal whose retry is off. */
  predicate Terminal(s: Settings, o: Outcome) {
    || (o.Error? && o.config)
    || (o.Error? && o.truncated && !s.retryTruncation)
    || ((o.Error? || o.Good?) && o.refused && !s.retryRefusal)
  }

  /** What turn number `attempt` ends, whatever the clock says. */
  predicate Stops(s: Settings, o: Outcome, attempt: nat) {
    Answers(s, o) || Terminal(s, o) || attempt == Attempts(s)
  }

  /** When the next attempt would begin. */
  function Resumes(backoff: Backoff, turn: Turn, attempt: nat, now: real): real
    requires attempt >= 1
  {
    now + Cost(turn) + Max(0.0, backoff(attempt - 1, RetryAfter(turn.outcome), turn.jitter))
  }

  /** The call starts before the deadline and its answer is there in time: until the decision for
      callers with provenance, and else until the end of the call. */
  predicate InTime(s: Settings, turn: Turn, now: real) {
    && !Past(s, now + turn.before)
    && if s.provenance then !Past(s, now + Cost(turn))
       else s.deadline.Some? ==> now + turn.before + turn.duration <= s.deadline.value
  }

  predicate Proper(s: Settings, turn: Turn, attempt: nat) {
    Admissible(turn) && 1 <= attempt <= Attempts(s) && (s.provenance ==> s.deadline.Some?)
  }

  /** One attempt is followed by another exactly when nothing in it stops the loop and the backoff ends
      before the deadline. */
  lemma AttemptGoesOnIff(s: Settings, backoff: Backoff, turn: Turn, attempt: nat, now: real)
    requires Proper(s, turn, attempt)
    ensures var next := Attempt(s, backoff, turn, attempt, now);
            && (next.GoesOn? <==>
                !Stops(s, turn.outcome, attempt) && !Past(s, Resumes(backoff, turn, attempt, now)))
            && (next.GoesOn? ==> next.now == Resumes(backoff, turn, attempt, now) && next.call.Some?)
  {
  }

  /** The deadline's own result: it cut the call off or made an answer late, for callers with provenance,
      or it left no room for a retry. */
  predicate RunsOut(s: Settings, backoff: Backoff, turn: Turn, attempt: nat, now: real)
    requires attempt >= 1
  {
    || (s.provenance && Past(s, now + turn.before + turn.duration))
    || (s.provenance && Past(s, now + Cost(turn)) && Answers(s, turn.outcome))
    || (&& !Stops(s, turn.outcome, attempt) && Past(s, Resumes(backoff, turn, attempt, now))
        && (s.provenance || !Past(s, now + Cost(turn))))
  }

  /** How a last attempt ends. */
  predicate Concludes(s: Settings, backoff: Backoff, turn: Turn, attempt: nat, now: real, result: Result)
    requires attempt >= 1
  {
    if Answers(s, turn.outcome) && InTime(s, turn, now) then result == Returned(attempt - 1)
    else if RunsOut(s, backoff, turn, attempt, now) then result == Overdue
    else result == Raised
  }

  lemma AttemptConcludes(s: Settings, backoff: Backoff, turn: Turn, attempt: nat, now: real)
    requires Proper(s, turn, attempt)
    ensures var next := Attempt(s, backoff, turn, attempt, now);
            && (next.Ends? ==> Concludes(s, backoff, turn, attempt, now, next.result))
            && (next.Ends? ==> (next.tried <==> !(s.provenance && Past(s, now))))
            && (next.Ends? ==> (next.call.Some? <==> !Past(s, now + turn.before)))
            && (next.Ends? && s.deadline.None? ==> next.now == now + Cost(turn))
  {
  }

  // ---- the whole run

  /** When attempt `i`, counted from zero, begins. */
  function At(turns: seq<Turn>, backoff: Backoff, t0: real, i: nat): real
    requires i <= |turns|
  {
    t0 + Elapsed(turns, backoff, i)
  }

  /** Turn `i` is followed by another. */
  predicate Continues(s: Settings, backoff: Backoff, turns: seq<Turn>, t0: real, i: nat)
    requires i < |turns|
  {
    !Stops(s, turns[i].outcome, i + 1) && !Past(s, At(turns, backoff, t0, i + 1))
  }

  /** From turn `from` to turn `last`: each one but the last is followed by another, and the last one gives
      the result. */
  predicate EndsAt(s: Settings, backoff: Backoff, turns: seq<Turn>, t0: real, from: nat, last: nat, ran: Ran)
    requires from <= last < |turns|
  {
    && |ran.blocks| == last - from + 1
    && (forall i :: from <= i < last ==> Continues(s, backoff, turns, t0, i))
    && !Continues(s, backoff, turns, t0, last)
    && Concludes(s, backoff, turns[last], last + 1, At(turns, backoff, t0, last), ran.result)
    && |ran.calls| == last - from + (if Past(s, At(turns, backoff, t0, last) + turns[last].before) then 0 else 1)
    && (s.deadline.None? ==> ran.finish == At(turns, backoff, t0, last) + Cost(turns[last]))
  }

  lemma EndsNow(s: Settings, backoff: Backoff, turns: seq<Turn>, t0: real, attempt: nat, next: Next)
    requires Possible(s, turns) && 1 <= attempt <= Attempts(s)
    requires next == Attempt(s, backoff, turns[attempt - 1], attempt, At(turns, backoff, t0, attempt - 1))
    requires next.Ends? && !(s.provenance && Past(s, At(turns, backoff, t0, attempt - 1)))
    ensures EndsAt(s, backoff, turns, t0, attempt - 1, attempt - 1, Ended(next, turns[attempt - 1]))
  {
    var now := At(turns, backoff, t0, attempt - 1);
    AttemptGoesOnIff(s, backoff, turns[attempt - 1], attempt, now);
    AttemptConcludes(s, backoff, turns[attempt - 1], attempt, now);
    assert At(turns, backoff, t0, attempt) == Resumes(backoff, turns[attempt - 1], attempt, now);
  }

  lemma EndsLater(s: Settings, backoff: Backoff, turns: seq<Turn>, t0: real, from: nat, last: nat, next: Next,
                  rest: Ran)
    requires from < last < |turns| && next.call.Some? && Continues(s, backoff, turns, t0, from)
    requires EndsAt(s, backoff, turns, t0, from + 1, last, rest)
    ensures EndsAt(s, backoff, turns, t0, from, last, Before(next, turns[from], rest))
  {
  }

  /** The run from one attempt on, and the one from the next: it ends there, or they differ by a call. */
  ghost predicate Links(s: Settings, backoff: Backoff, turns: seq<Turn>, t0: real, i: nat, run: Ran, rest: Ran)
    requires i < |turns|
  {
    if Continues(s, backoff, turns, t0, i)
    then exists next: Next :: next.call.Some? && run == Before(next, turns[i], rest)
    else EndsAt(s, backoff, turns, t0, i, i, run)
  }

  predicate OnEntry(s: Settings, backoff: Backoff, turns: seq<Turn>, t0: real, i: nat)
    requires i <= |turns|
  {
    s.provenance ==> !Past(s, At(turns, backoff, t0, i))
  }

  /** The run from turn `i` on, at its time. */
  function Tail(s: Settings, backoff: Backoff, turns: seq<Turn>, t0: real, i: nat): Ran
    requires Attempts(s) <= |turns|
  {
    if i < Attempts(s) then RunFrom(s, backoff, turns, i + 1, At(turns, backoff, t0, i))
    else Ran(Raised, [], [], [], t0)
  }

  /** Where the next attempt begins. */
  lemma NextAt(s: Settings, backoff: Backoff, turns: seq<Turn>, t0: real, i: nat, next: Next)
    requires Possible(s, turns) && i < Attempts(s)
    requires next == Attempt(s, backoff, turns[i], i + 1, At(turns, backoff, t0, i))
    ensures next.GoesOn? <==> Continues(s, backoff, turns, t0, i)
    ensures next.GoesOn? ==> i + 1 < Attempts(s) && next.call.Some? && next.now == At(turns, backoff, t0, i + 1)
  {
    AttemptGoesOnIff(s, backoff, turns[i], i + 1, At(turns, backoff, t0, i));
    assert At(turns, backoff, t0, i + 1) == Resumes(backoff, turns[i], i + 1, At(turns, backoff, t0, i));
  }

  lemma TailUnfolds(s: Settings, backoff: Backoff, turns: seq<Turn>, t0: real, i: nat, next: Next)
    requires Possible(s, turns) && i < Attempts(s)
    requires next == Attempt(s, backoff, turns[i], i + 1, At(turns, backoff, t0, i))
    ensures Tail(s, backoff, turns, t0, i) == if next.Ends? then Ended(next, turns[i])
                                              else Before(next, turns[i], Tail(s, backoff, turns, t0, i + 1))
  {
    NextAt(s, backoff, turns, t0, i, next);
    RunUnfolds(s, backoff, turns, i + 1, At(turns, backoff, t0, i), next);
  }

  lemma LinksBy(s: Settings, backoff: Backoff, turns: seq<Turn>, t0: real, i: nat, next: Next, run: Ran, rest: Ran)
    requires Possible(s, turns) && i < Attempts(s) && OnEntry(s, backoff, turns, t0, i)
    requires next == Attempt(s, backoff, turns[i], i + 1, At(turns, backoff, t0, i))
    requires run == if next.Ends? then Ended(next, turns[i]) else Before(next, turns[i], rest)
    ensures Links(s, backoff, turns, t0, i, run, rest)
  {
    NextAt(s, backoff, turns, t0, i, next);
    if next.Ends? { EndsNow(s, backoff, turns, t0, i + 1, next); }
  }

  function Tails(s: Settings, backoff: Backoff, turns: seq<Turn>, t0: real): nat -> Ran
    requires Attempts(s) <= |turns|
  {
    (i: nat) => Tail(s, backoff, turns, t0, i)
  }

  /** A chain of runs linked like this ends at a turn that does not continue. */
  lemma {:induction false} LinkedEnds(s: Settings, backoff: Backoff, turns: seq<Turn>, t0: real, runs: nat -> Ran,
                                      i: nat) returns (last: nat)
    requires Possible(s, turns) && i < Attempts(s) && OnEntry(s, backoff, turns, t0, i)
    requires forall k :: i <= k < Attempts(s) && OnEntry(s, backoff, turns, t0, k) ==>
               Links(s, backoff, turns, t0, k, runs(k), runs(k + 1))
    ensures i <= last < Attempts(s) && EndsAt(s, backoff, turns, t0, i, last, runs(i))
    decreases Attempts(s) - i
  {
    last := i;
    if Continues(s, backoff, turns, t0, i) {
      var next: Next :| next.call.Some? && runs(i) == Before(next, turns[i], runs(i + 1));
      last := LinkedEnds(s, backoff, turns, t0, runs, i + 1);
      EndsLater(s, backoff, turns, t0, i, last, next, runs(i + 1));
    }
  }

  /** Unless a caller with provenance comes too late, there is a last turn; every earlier one gives
      nothing usable and nothing terminal, is not the last allowed, and is followed by another because the
      backoff ends before the deadline; for the last one some of this fails, and it decides the result. */
  predicate DecidedByTurns(s: Settings, backoff: Backoff, turns: seq<Turn>, t0: real, ran: Ran)
    requires Possible(s, turns)
  {
    if s.provenance && Past(s, t0) then ran.result == Overdue && ran.calls == [] && ran.blocks == []
    else 1 <= |ran.blocks| <= Attempts(s) && EndsAt(s, backoff, turns, t0, 0, |ran.blocks| - 1, ran)
  }

  ghost predicate Linked(s: Settings, backoff: Backoff, turns: seq<Turn>, t0: real, runs: nat -> Ran)
    requires Possible(s, turns)
  {
    forall k :: 0 <= k < Attempts(s) && OnEntry(s, backoff, turns, t0, k) ==>
      Links(s, backoff, turns, t0, k, runs(k), runs(k + 1))
  }

  lemma LinkedIsDecided(s: Settings, backoff: Backoff, turns: seq<Turn>, t0: real, runs: nat -> Ran)
    requires Possible(s, turns) && OnEntry(s, backoff, turns, t0, 0) && Linked(s, backoff, turns, t0, runs)
    ensures DecidedByTurns(s, backoff, turns, t0, runs(0))
  {
    assert At(turns, backoff, t0, 0) == t0;
    var last := LinkedEnds(s, backoff, turns, t0, runs, 0);
  }

  lemma TailsAreLinked(s: Settings, backoff: Backoff, turns: seq<Turn>, t0: real)
    requires Possible(s, turns)
    ensures Linked(s, backoff, turns, t0, Tails(s, backoff, turns, t0))
  {
    forall i | 0 <= i < Attempts(s) && OnEntry(s, backoff, turns, t0, i)
      ensures Links(s, backoff, turns, t0, i, Tail(s, backoff, turns, t0, i), Tail(s, backoff, turns, t0, i + 1))
    {
      var next := Attempt(s, backoff, turns[i], i + 1, At(turns, backoff, t0, i));
      TailUnfolds(s, backoff, turns, t0, i, next);
      LinksBy(s, backoff, turns, t0, i, next, Tail(s, backoff, turns, t0, i), Tail(s, backoff, turns, t0, i + 1));
    }
  }

  lemma LateRunIsDecided(s: Settings, backoff: Backoff, turns: seq<Turn>, t0: real)
    requires Possible(s, turns) && s.provenance && Past(s, t0)
    ensures DecidedByTurns(s, backoff, turns, t0, RunFrom(s, backoff, turns, 1, t0))
  {
    RunUnfolds(s, backoff, turns, 1, t0, Attempt(s, backoff, turns[0], 1, t0));
  }

  /** The whole run, told from the turns and the clock. */
  lemma RunIsDecidedByTurns(s: Settings, backoff: Backoff, turns: seq<Turn>, t0: real)
    requires Possible(s, turns)
    ensures DecidedByTurns(s, backoff, turns, t0, RunFrom(s, backoff, turns, 1, t0))
  {
    assert At(turns, backoff, t0, 0) == t0;
    if s.provenance && Past(s, t0) {
      LateRunIsDecided(s, backoff, turns, t0);
    } else {
      TailsAreLinked(s, backoff, turns, t0);
      LinkedIsDecided(s, backoff, turns, t0, Tails(s, backoff, turns, t0));
      assert Tails(s, backoff, turns, t0)(0) == RunFrom(s, backoff, turns, 1, t0);
    }
  }

  /** The first turn that stops the loop. */
  predicate FirstStop(s: Settings, turns: seq<Turn>, k: nat) {
    && k < |turns| && Stops(s, turns[k].outcome, k + 1)
    && forall i :: 0 <= i < k ==> !Stops(s, turns[i].outcome, i + 1)
  }

  /** Without a deadline the run makes the calls up to the first turn that stops it, no more and no
      fewer, and returns exactly when that turn is a usable answer. */
  lemma RunWithoutDeadline(s: Settings, backoff: Backoff, turns: seq<Turn>, t0: real, k: nat)
    requires Possible(s, turns) && s.deadline.None?
    ensures var ran := RunFrom(s, backoff, turns, 1, t0);
            && (FirstStop(s, turns, k) <==> |ran.calls| == |ran.blocks| == k + 1)
            && (FirstStop(s, turns, k) ==>
                  ran.result == if Answers(s, turns[k].outcome) then Returned(k) else Raised)
  {
    RunIsDecidedByTurns(s, backoff, turns, t0);
    var ran := RunFrom(s, backoff, turns, 1, t0);
    var last := |ran.blocks| - 1;
    assert FirstStop(s, turns, last) by {
      forall i | 0 <= i < last
        ensures !Stops(s, turns[i].outcome, i + 1)
      {
        assert Continues(s, backoff, turns, t0, i);
      }
    }
  }

  // ---- the retrying call

  /** `reliable_chat_completion_async`: the calls are the answers of the first turns, in order, and the
      trace is theirs. */
  method Reliable(s: Settings, turns: seq<Turn>, t0: real) returns (ran: Ran, trace: seq<Entry>)
    requires Possible(s, turns)
    ensures ran == RunFrom(s, BackoffOf(s), turns, 1, t0) && trace == Chain(ran.blocks)
    ensures |ran.calls| <= |ran.blocks| <= Attempts(s) && Lawful(s, ran.calls, ran.sleeps)
    ensures Tied(turns, ran.calls, ran.blocks, 1)
    ensures ran.result.Returned? ==>
              && |ran.blocks| == ran.result.retries + 1 == |ran.calls| && turns[ran.result.retries].outcome.Good?
    ensures DecidedByTurns(s, BackoffOf(s), turns, t0, ran)
  {
    ran, trace := Retrying(s, BackoffOf(s), turns, t0);
    RunIsLawful(s, BackoffOf(s), turns, 1, t0);
    RunIsTied(s, BackoffOf(s), turns, 1, t0);
    RunIsDecidedByTurns(s, BackoffOf(s), turns, t0);
    if ran.result.Returned? {
      assert CallOf(turns[1 - 1 + ran.result.retries], ran.calls[ran.result.retries]);
    }
  }

  /** So a run without a deadline, whose turns keep their timeout, is over within the envelope. */
  lemma RunWithinEnvelope(s: Settings, turns: seq<Turn>, timeout: real, t0: real)
    requires Possible(s, turns) && s.deadline.None? && Nominal(turns, timeout)
    requires timeout > 0.0 && s.base >= 0.0 && s.maxDelay > 0.0
    ensures RunFrom(s, BackoffOf(s), turns, 1, t0).finish - t0
         <= Envelope(timeout, Attempts(s), s.base, s.maxDelay)
  {
    RunIsDecidedByTurns(s, BackoffOf(s), turns, t0);
    WithinEnvelope(s, turns, timeout, |RunFrom(s, BackoffOf(s), turns, 1, t0).blocks|);
  }
}
