/** The bounded provider retry: attempts, backoff, the absolute deadline and the attempt trace. */
module RetryLoop {
  import opened Prelude

  // ---- backoff arithmetic

  function Pow3(n: nat): real {
    if n == 0 then 1.0 else 3.0 * Pow3(n - 1)
  }

  /** `_reliable_retry_delay_ceiling_sec`, before retry number `retry` counted from zero. */
  function Ceiling(retry: nat, base: real, maxDelay: real, retryAfter: Option<real>): real {
    var delay := Min(base * Pow3(retry), maxDelay);
    (if retryAfter.Some? then Min(Max(delay, retryAfter.value), maxDelay) else delay) * 1.5
  }

  /** `_reliable_retry_delay_sec`; `jitter` is the uniform draw. */
  function Delay(retry: nat, base: real, maxDelay: real, retryAfter: Option<real>, jitter: real): real {
    var ceiling := Ceiling(retry, base, maxDelay, retryAfter);
    var low := ceiling / 1.5;
    low + jitter * (ceiling - low)
  }

  function Sum(f: nat -> real, n: nat): real {
    if n == 0 then 0.0 else Sum(f, n - 1) + f(n - 1)
  }

  function CeilingOf(base: real, maxDelay: real): nat -> real {
    (retry: nat) => Ceiling(retry, base, maxDelay, None)
  }

  /** `reliable_chat_nominal_envelope_sec`. */
  function Envelope(timeout: real, attempts: nat, base: real, maxDelay: real): real
    requires attempts >= 1
  {
    attempts as real * timeout + Sum(CeilingOf(base, maxDelay), attempts - 1)
  }

  lemma {:induction false} Pow3Positive(n: nat)
    ensures Pow3(n) >= 1.0
  {
    if n > 0 { Pow3Positive(n - 1); }
  }

  /** The delay lies between two thirds of its ceiling and the ceiling, and never above 1.5 times
      the cap. */
  lemma DelayBetween(retry: nat, base: real, maxDelay: real, retryAfter: Option<real>, jitter: real)
    requires base >= 0.0 && maxDelay > 0.0 && 0.0 <= jitter <= 1.0
    ensures var c := Ceiling(retry, base, maxDelay, retryAfter);
            0.0 <= c / 1.5 <= Delay(retry, base, maxDelay, retryAfter, jitter) <= c <= 1.5 * maxDelay
  {
    var c := Ceiling(retry, base, maxDelay, retryAfter);
    Pow3Positive(retry);
    Product(base, Pow3(retry));
    assert c >= 0.0;
    Product(jitter, c - c / 1.5);
    Product(1.0 - jitter, c - c / 1.5);
    assert jitter * (c - c / 1.5) + (1.0 - jitter) * (c - c / 1.5) == c - c / 1.5;
  }

  /** And every delay in that window can be drawn. */
  lemma DelayCovers(retry: nat, base: real, maxDelay: real, retryAfter: Option<real>, delay: real)
    requires base >= 0.0 && maxDelay > 0.0
    requires var c := Ceiling(retry, base, maxDelay, retryAfter); c / 1.5 <= delay <= c
    ensures exists jitter: real :: 0.0 <= jitter <= 1.0 && Delay(retry, base, maxDelay, retryAfter, jitter) == delay
  {
    var c := Ceiling(retry, base, maxDelay, retryAfter);
    var low := c / 1.5;
    DelayBetween(retry, base, maxDelay, retryAfter, 0.0);
    var jitter := if c == low then 0.0 else (delay - low) / (c - low);
    assert 0.0 <= jitter <= 1.0;
    assert Delay(retry, base, maxDelay, retryAfter, jitter) == delay;
  }

  /** Without a Retry-After the ceiling starts at 1.5 times the base delay and triples up to 1.5 times the
      cap; a Retry-After raises it to 1.5 times that wait, within the same cap. */
  lemma CeilingTriples(retry: nat, base: real, maxDelay: real, wait: real)
    requires base >= 0.0 && maxDelay > 0.0
    ensures Ceiling(0, base, maxDelay, None) == 1.5 * Min(base, maxDelay)
    ensures Ceiling(retry + 1, base, maxDelay, None) == Min(3.0 * Ceiling(retry, base, maxDelay, None), 1.5 * maxDelay)
    ensures Ceiling(retry, base, maxDelay, Some(wait))
         == Max(Ceiling(retry, base, maxDelay, None), Min(1.5 * wait, 1.5 * maxDelay))
  {
    assert base * Pow3(retry + 1) == 3.0 * (base * Pow3(retry));
  }

  lemma Product(a: real, b: real)
    requires a >= 0.0 && b >= 0.0
    ensures a * b >= 0.0
  {
  }

  // ---- the attempt trace

  datatype Entry = Wire(ordinal: nat, outer: nat, id: nat) | Marker(ordinal: nat, outer: nat, listed: seq<nat>)

  /** The wire entries of one outer attempt, numbered on from `before` entries. */
  function Numbered(before: nat, wires: seq<nat>, outer: nat): (r: seq<Entry>)
    ensures |r| == |wires| && forall i :: 0 <= i < |r| ==> r[i] == Wire(before + i + 1, outer, wires[i])
  {
    seq(|wires|, i requires 0 <= i < |wires| => Wire(before + i + 1, outer, wires[i]))
  }

  function Ordinals(before: nat, n: nat): (r: seq<nat>)
    ensures |r| == n && forall i :: 0 <= i < n ==> r[i] == before + i + 1
  {
    seq(n, i requires 0 <= i < n => before + i + 1)
  }

  function Block(before: nat, wires: seq<nat>, outer: nat): seq<Entry> {
    Numbered(before, wires, outer) + [Marker(before + |wires| + 1, outer, Ordinals(before, |wires|))]
  }

  /** The trace of attempts 1, 2, ... with these wires. */
  function Chain(blocks: seq<seq<nat>>): seq<Entry> {
    if blocks == [] then []
    else
      var n := |blocks| - 1;
      Chain(blocks[..n]) + Block(|Chain(blocks[..n])|, blocks[n], n + 1)
  }

  /** `_extend_attempt_trace`. */
  method ExtendTrace(target: seq<Entry>, wires: seq<nat>, outer: nat) returns (extended: seq<Entry>, ordinals: seq<nat>)
    ensures extended == target + Numbered(|target|, wires, outer)
    ensures ordinals == Ordinals(|target|, |wires|)
  {
    extended, ordinals := target, [];
    var i := 0;
    while i < |wires|
      invariant 0 <= i <= |wires|
      invariant extended == target + Numbered(|target|, wires[..i], outer)
      invariant ordinals == Ordinals(|target|, i)
    {
      var item := Wire(|extended| + 1, outer, wires[i]);
      extended, ordinals := extended + [item], ordinals + [item.ordinal];
      i := i + 1;
    }
    assert wires[..i] == wires;
  }

  lemma {:induction false} ChainOrdinals(blocks: seq<seq<nat>>)
    ensures forall i :: 0 <= i < |Chain(blocks)| ==> Chain(blocks)[i].ordinal == i + 1
  {
    if blocks != [] { ChainOrdinals(blocks[..|blocks| - 1]); }
  }

  /** The entry at `i` closes a block: the ordinals it lists are exactly the wires just before it, of
      its own attempt, back to the previous marker. */
  predicate ClosesItsBlock(trace: seq<Entry>, i: nat)
    requires i < |trace| && trace[i].Marker?
  {
    var n := |trace[i].listed|;
    && n <= i && trace[i].listed == Ordinals(i - n, n)
    && (forall j :: i - n <= j < i ==> trace[j].Wire? && trace[j].outer == trace[i].outer)
    && (i > n ==> trace[i - n - 1].Marker? && trace[i - n - 1].outer + 1 == trace[i].outer)
    && (i == n ==> trace[i].outer == 1)
  }

  lemma ClosesStays(trace: seq<Entry>, more: seq<Entry>, i: nat)
    requires i < |trace| && trace[i].Marker? && ClosesItsBlock(trace, i)
    ensures ClosesItsBlock(trace + more, i)
  {
  }

  lemma LastCloses(prev: seq<Entry>, wires: seq<nat>, outer: nat)
    requires prev != [] ==> prev[|prev| - 1].Marker? && prev[|prev| - 1].outer + 1 == outer
    requires prev == [] ==> outer == 1
    ensures ClosesItsBlock(prev + Block(|prev|, wires, outer), |prev| + |wires|)
  {
    var t := prev + Block(|prev|, wires, outer);
    assert t == prev + Numbered(|prev|, wires, outer) + [t[|t| - 1]];
  }

  lemma {:induction false} ChainEnds(blocks: seq<seq<nat>>)
    ensures var t := Chain(blocks);
            (t != [] ==> t[|t| - 1].Marker? && t[|t| - 1].outer == |blocks|) && (t == [] ==> blocks == [])
  {
  }

  predicate AllClose(trace: seq<Entry>) {
    forall i {:trigger ClosesItsBlock(trace, i)} :: 0 <= i < |trace| && trace[i].Marker? ==> ClosesItsBlock(trace, i)
  }

  lemma BlockCloses(prev: seq<Entry>, wires: seq<nat>, outer: nat)
    requires AllClose(prev)
    requires prev != [] ==> prev[|prev| - 1].Marker? && prev[|prev| - 1].outer + 1 == outer
    requires prev == [] ==> outer == 1
    ensures AllClose(prev + Block(|prev|, wires, outer))
  {
    var last := Block(|prev|, wires, outer);
    var t := prev + last;
    LastCloses(prev, wires, outer);
    forall i | 0 <= i < |t| && t[i].Marker?
      ensures ClosesItsBlock(t, i)
    {
      if i < |prev| {
        assert ClosesItsBlock(prev, i);
        ClosesStays(prev, last, i);
      } else {
        assert t[i] == last[i - |prev|];
      }
    }
  }

  /** Every marker of a trace lists exactly the contiguous wires of its own attempt. */
  lemma {:induction false} MarkersCloseBlocks(blocks: seq<seq<nat>>)
    ensures AllClose(Chain(blocks))
  {
    if blocks != [] {
      var n := |blocks| - 1;
      MarkersCloseBlocks(blocks[..n]);
      ChainEnds(blocks[..n]);
      BlockCloses(Chain(blocks[..n]), blocks[n], n + 1);
    }
  }

  // ---- the loop

  /** How one provider call ends.  `Expired` is the deadline's own outcome, `TimedOut` the plain
      timeout of callers without provenance. */
  datatype Outcome =
    | Good(refused: bool)
    | Error(config: bool, truncated: bool, refused: bool, retryAfter: Option<real>)
    | Expired
    | TimedOut

  /** What the world does in one attempt: time until the call, the call itself, its answer and wires,
      time until the decision, and the jitter drawn. */
  datatype Turn = Turn(before: real, duration: real, outcome: Outcome, wires: seq<nat>, after: real, jitter: real)

  datatype Settings = Settings(maxAttempts: int, base: real, maxDelay: real, deadline: Option<real>, provenance: bool,
                               retryRefusal: bool, retryTruncation: bool)

  datatype Call = Call(start: real, end: real, outcome: Outcome)
  datatype Sleep = Sleep(from: real, until: real)
  datatype Result = Returned(retries: nat) | Raised | Overdue

  function Attempts(s: Settings): nat {
    if s.maxAttempts < 1 then 1 else s.maxAttempts
  }

  predicate Admissible(turn: Turn) {
    turn.before >= 0.0 && turn.duration >= 0.0 && turn.after >= 0.0 && 0.0 <= turn.jitter <= 1.0
    && !turn.outcome.Expired? && !turn.outcome.TimedOut?
  }

  predicate Past(s: Settings, now: real) {
    s.deadline.Some? && now >= s.deadline.value
  }

  /** The outcome the loop sees: an answer at or after the deadline is the deadline's. */
  function Seen(s: Settings, turn: Turn, end: real): Outcome {
    if s.deadline.Some? && s.provenance && end >= s.deadline.value then Expired
    else if s.deadline.Some? && !s.provenance && end > s.deadline.value then TimedOut
    else turn.outcome
  }

  /** What ends the retrying whatever the clock says. */
  predicate Final(s: Settings, o: Outcome, attempt: nat) {
    || attempt >= Attempts(s) || o.Expired?
    || (o.Error? && (o.config || (o.truncated && !s.retryTruncation)))
    || (o.Error? && o.refused && !s.retryRefusal) || (o.Good? && o.refused && !s.retryRefusal)
  }

  /** One attempt, from the entry check to the answer. */
  datatype Step = Late | Tried(call: Option<Call>, seen: Outcome, now: real)

  function Try(s: Settings, turn: Turn, now: real): Step {
    if s.provenance && Past(s, now) then Late
    else
      var start := now + turn.before;
      if Past(s, start) then Tried(None, if s.provenance then Expired else TimedOut, start + turn.after)
      else
        var end := start + turn.duration;
        var seen := Seen(s, turn, end);
        var decided := end + turn.after;
        var late := s.provenance && Past(s, decided) && seen.Good? && (s.retryRefusal || !seen.refused);
        Tried(Some(Call(start, end, turn.outcome)), if late then Expired else seen, decided)
  }

  /** What a whole run has done so far. */
  predicate Lawful(s: Settings, calls: seq<Call>, sleeps: seq<Sleep>) {
    && (forall i :: 0 <= i < |calls| ==> !Past(s, calls[i].start))
    && (forall i :: 0 <= i < |sleeps| ==> s.deadline.Some? ==> sleeps[i].until <= s.deadline.value)
    && (forall i :: 0 <= i < |calls| - 1 ==> !ConfigError(calls[i].outcome))
  }

  type Backoff = (nat, Option<real>, real) -> real

  function RetryAfter(o: Outcome): Option<real> {
    if o.Error? then o.retryAfter else None
  }

  /** The time of one attempt, and of `n` attempts with the backoff after each. */
  function Cost(turn: Turn): real {
    turn.before + turn.duration + turn.after
  }

  function Elapsed(turns: seq<Turn>, backoff: Backoff, n: nat): real
    requires n <= |turns|
  {
    if n == 0 then 0.0
    else
      var turn := turns[n - 1];
      Elapsed(turns, backoff, n - 1) + Cost(turn) + Max(0.0, backoff(n - 1, RetryAfter(turn.outcome), turn.jitter))
  }

  /** The trace grows by one block per attempt. */
  method Record(trace: seq<Entry>, blocks: seq<seq<nat>>, wires: seq<nat>) returns (longer: seq<Entry>)
    requires trace == Chain(blocks)
    ensures longer == Chain(blocks + [wires])
  {
    var attempt := |blocks| + 1;
    var ordinals;
    longer, ordinals := ExtendTrace(trace, wires, attempt);
    longer := longer + [Marker(|longer| + 1, attempt, ordinals)];
    assert (blocks + [wires])[..|blocks|] == blocks;
    assert longer == trace + Block(|trace|, wires, attempt);
  }

  /** What one attempt leads to: the loop ends, or it has slept and goes on. */
  datatype Next =
    | Ends(result: Result, tried: bool, call: Option<Call>, sleep: Option<Sleep>, now: real)
    | GoesOn(call: Option<Call>, sleep: Option<Sleep>, now: real)

  function Attempt(s: Settings, backoff: Backoff, turn: Turn, attempt: nat, now: real): Next
    requires attempt >= 1
  {
    var step := Try(s, turn, now);
    if step.Late? then Ends(Overdue, false, None, None, now)
    else if step.seen.Good? && !(step.seen.refused && !s.retryRefusal)
    then Ends(Returned(attempt - 1), true, step.call, None, step.now)
    else if Final(s, step.seen, attempt) || Past(s, step.now)
    then
      var overdue := step.seen.Expired? || (s.provenance && !Final(s, step.seen, attempt));
      Ends(if overdue then Overdue else Raised, true, step.call, None, step.now)
    else
      var delay := backoff(attempt - 1, RetryAfter(step.seen), turn.jitter);
      if s.deadline.Some? && delay >= s.deadline.value - step.now
      then Ends(Overdue, true, step.call, Some(Sleep(step.now, s.deadline.value)), s.deadline.value)
      else GoesOn(step.call, Some(Sleep(step.now, step.now + delay)), step.now + Max(0.0, delay))
  }

  /** No call starts at or after the deadline and no sleep ends after it. */
  predicate OnTime(s: Settings, next: Next) {
    && (next.call.Some? ==> !Past(s, next.call.value.start))
    && (next.sleep.Some? && s.deadline.Some? ==> next.sleep.value.until <= s.deadline.value)
  }

  /** No call starts at or after the deadline, no sleep ends after it, and the loop goes on only after a
      call that was no config error and not the last. */
  lemma AttemptIsLawful(s: Settings, backoff: Backoff, turn: Turn, attempt: nat, now: real)
    requires Admissible(turn) && attempt >= 1 && (s.provenance ==> s.deadline.Some?)
    ensures SoundNext(s, attempt, Attempt(s, backoff, turn, attempt, now))
  {
  }

  function Listed<T>(o: Option<T>): seq<T> {
    if o.Some? then [o.value] else []
  }

  /** What a whole run does: how it ends, its calls and sleeps, the wires of each traced attempt, and
      when it is over. */
  datatype Ran = Ran(result: Result, calls: seq<Call>, sleeps: seq<Sleep>, blocks: seq<seq<nat>>, finish: real)

  function Wires(next: Next, turn: Turn): seq<nat> {
    if next.call.Some? then turn.wires else []
  }

  /** The loop from attempt `attempt` on, at time `now`. */
  function RunFrom(s: Settings, backoff: Backoff, turns: seq<Turn>, attempt: nat, now: real): Ran
    requires 1 <= attempt <= Attempts(s) <= |turns|
    decreases Attempts(s) - attempt
  {
    var turn := turns[attempt - 1];
    var next := Attempt(s, backoff, turn, attempt, now);
    if next.Ends? then Ended(next, turn)
    else Before(next, turn, RunFrom(s, backoff, turns, attempt + 1, next.now))
  }

  function Ended(next: Next, turn: Turn): Ran
    requires next.Ends?
  {
    Ran(next.result, Listed(next.call), Listed(next.sleep), if next.tried then [Wires(next, turn)] else [], next.now)
  }

  function Before(next: Next, turn: Turn, rest: Ran): Ran {
    Ran(rest.result, Listed(next.call) + rest.calls, Listed(next.sleep) + rest.sleeps,
        [Wires(next, turn)] + rest.blocks, rest.finish)
  }

  predicate Possible(s: Settings, turns: seq<Turn>) {
    && Attempts(s) <= |turns| && (forall i :: 0 <= i < |turns| ==> Admissible(turns[i]))
    && (s.provenance ==> s.deadline.Some?)
  }

  predicate ConfigError(o: Outcome) {
    o.Error? && o.config
  }

  lemma LawfulBefore(s: Settings, next: Next, calls: seq<Call>, sleeps: seq<Sleep>)
    requires Lawful(s, calls, sleeps) && OnTime(s, next) && next.call.Some? && !ConfigError(next.call.value.outcome)
    ensures Lawful(s, Listed(next.call) + calls, Listed(next.sleep) + sleeps)
  {
  }

  /** Lawful from attempt `attempt` on; a returned answer is that of the last call. */
  predicate Sound(s: Settings, attempt: nat, ran: Ran) {
    && Lawful(s, ran.calls, ran.sleeps)
    && |ran.calls| <= |ran.blocks| <= Attempts(s) - attempt + 1
    && (ran.result.Returned? ==>
          && |ran.calls| == |ran.blocks| >= 1 && ran.result.retries == attempt + |ran.calls| - 2
          && ran.calls[|ran.calls| - 1].outcome.Good?)
  }

  /** What `AttemptIsLawful` says of one attempt. */
  predicate SoundNext(s: Settings, attempt: nat, next: Next) {
    && OnTime(s, next)
    && (next.GoesOn? ==> next.call.Some? && attempt < Attempts(s) && !ConfigError(next.call.value.outcome))
    && (next.Ends? && !next.tried ==> next.call.None?)
    && (next.Ends? && next.result.Returned? ==>
          && next.tried && next.call.Some? && next.call.value.outcome.Good? && next.result.retries == attempt - 1)
  }

  lemma SoundEnd(s: Settings, attempt: nat, next: Next, turn: Turn)
    requires 1 <= attempt <= Attempts(s) && next.Ends? && SoundNext(s, attempt, next)
    ensures Sound(s, attempt, Ended(next, turn))
  {
  }

  lemma SoundOn(s: Settings, attempt: nat, next: Next, turn: Turn, rest: Ran)
    requires next.GoesOn? && SoundNext(s, attempt, next) && Sound(s, attempt + 1, rest)
    ensures Sound(s, attempt, Before(next, turn, rest))
  {
    LawfulBefore(s, next, rest.calls, rest.sleeps);
  }

  /** At most the allowed attempts, none after a config error or the deadline, no backoff past it. */
  lemma {:induction false} RunIsLawful(s: Settings, backoff: Backoff, turns: seq<Turn>, attempt: nat, now: real)
    requires Possible(s, turns) && 1 <= attempt <= Attempts(s)
    ensures Sound(s, attempt, RunFrom(s, backoff, turns, attempt, now))
    decreases Attempts(s) - attempt
  {
    var turn := turns[attempt - 1];
    var next := Attempt(s, backoff, turn, attempt, now);
    AttemptIsLawful(s, backoff, turn, attempt, now);
    RunUnfolds(s, backoff, turns, attempt, now, next);
    if next.GoesOn? {
      RunIsLawful(s, backoff, turns, attempt + 1, next.now);
      SoundOn(s, attempt, next, turn, RunFrom(s, backoff, turns, attempt + 1, next.now));
    } else {
      SoundEnd(s, attempt, next, turn);
    }
  }

  /** Call `i` is the answer the world gives in its turn and takes as long, and the trace has the wires
      of that turn. */
  predicate Tied(turns: seq<Turn>, calls: seq<Call>, blocks: seq<seq<nat>>, attempt: nat)
    requires attempt >= 1 && |calls| <= |blocks| <= |turns| - attempt + 1
  {
    && (forall i :: 0 <= i < |calls| ==> CallOf(turns[attempt - 1 + i], calls[i]))
    && (forall i :: 0 <= i < |blocks| ==> blocks[i] == if i < |calls| then turns[attempt - 1 + i].wires else [])
  }

  predicate CallOf(turn: Turn, call: Call) {
    call.outcome == turn.outcome && call.end == call.start + turn.duration
  }

  lemma AttemptIsTied(s: Settings, backoff: Backoff, turn: Turn, attempt: nat, now: real)
    requires attempt >= 1
    ensures var next := Attempt(s, backoff, turn, attempt, now);
            && (next.call.Some? ==> CallOf(turn, next.call.value))
            && (next.Ends? && next.call.Some? ==> next.tried)
  {
  }

  lemma TiedBefore(turns: seq<Turn>, calls: seq<Call>, blocks: seq<seq<nat>>, attempt: nat, call: Call)
    requires 1 <= attempt <= |turns| && |calls| <= |blocks| <= |turns| - attempt
    requires Tied(turns, calls, blocks, attempt + 1) && CallOf(turns[attempt - 1], call)
    ensures Tied(turns, [call] + calls, [turns[attempt - 1].wires] + blocks, attempt)
  {
    forall i | 0 <= i < |calls| + 1
      ensures CallOf(turns[attempt - 1 + i], ([call] + calls)[i])
    {
      if i > 0 { assert CallOf(turns[attempt + 1 - 1 + (i - 1)], calls[i - 1]); }
    }
  }

  lemma {:induction false} RunIsTied(s: Settings, backoff: Backoff, turns: seq<Turn>, attempt: nat, now: real)
    requires Possible(s, turns) && 1 <= attempt <= Attempts(s)
    ensures var ran := RunFrom(s, backoff, turns, attempt, now);
            && |ran.calls| <= |ran.blocks| <= |turns| - attempt + 1
            && Tied(turns, ran.calls, ran.blocks, attempt)
    decreases Attempts(s) - attempt
  {
    var turn := turns[attempt - 1];
    var next := Attempt(s, backoff, turn, attempt, now);
    AttemptIsLawful(s, backoff, turn, attempt, now);
    AttemptIsTied(s, backoff, turn, attempt, now);
    if next.GoesOn? {
      RunIsTied(s, backoff, turns, attempt + 1, next.now);
      var rest := RunFrom(s, backoff, turns, attempt + 1, next.now);
      TiedBefore(turns, rest.calls, rest.blocks, attempt, next.call.value);
    }
  }

  lemma RunUnfolds(s: Settings, backoff: Backoff, turns: seq<Turn>, attempt: nat, now: real, next: Next)
    requires 1 <= attempt <= Attempts(s) <= |turns| && next == Attempt(s, backoff, turns[attempt - 1], attempt, now)
    ensures next.GoesOn? ==> attempt < Attempts(s)
    ensures var turn := turns[attempt - 1];
            RunFrom(s, backoff, turns, attempt, now) ==
            if next.Ends? then Ended(next, turn)
            else Before(next, turn, RunFrom(s, backoff, turns, attempt + 1, next.now))
  {
  }

  function Joined(calls: seq<Call>, sleeps: seq<Sleep>, blocks: seq<seq<nat>>, rest: Ran): Ran {
    Ran(rest.result, calls + rest.calls, sleeps + rest.sleeps, blocks + rest.blocks, rest.finish)
  }

  lemma JoinedBefore(calls: seq<Call>, sleeps: seq<Sleep>, blocks: seq<seq<nat>>, next: Next, turn: Turn, rest: Ran)
    ensures Joined(calls, sleeps, blocks, Before(next, turn, rest))
         == Joined(calls + Listed(next.call), sleeps + Listed(next.sleep), blocks + [Wires(next, turn)], rest)
  {
    assert calls + (Listed(next.call) + rest.calls) == calls + Listed(next.call) + rest.calls;
    assert sleeps + (Listed(next.sleep) + rest.sleeps) == sleeps + Listed(next.sleep) + rest.sleeps;
    assert blocks + ([Wires(next, turn)] + rest.blocks) == blocks + [Wires(next, turn)] + rest.blocks;
  }

  /** The retry loop for any backoff rule. */
  method Retrying(s: Settings, backoff: Backoff, turns: seq<Turn>, t0: real) returns (ran: Ran, trace: seq<Entry>)
    requires Attempts(s) <= |turns|
    ensures ran == RunFrom(s, backoff, turns, 1, t0) && trace == Chain(ran.blocks)
  {
    var calls: seq<Call>, sleeps: seq<Sleep>, blocks: seq<seq<nat>> := [], [], [];
    var now, attempt := t0, 1;
    trace := [];
    while true
      invariant 1 <= attempt <= Attempts(s) && trace == Chain(blocks)
      invariant RunFrom(s, backoff, turns, 1, t0)
             == Joined(calls, sleeps, blocks, RunFrom(s, backoff, turns, attempt, now))
      decreases Attempts(s) - attempt
    {
      var turn := turns[attempt - 1];
      var next := Attempt(s, backoff, turn, attempt, now);
      RunUnfolds(s, backoff, turns, attempt, now, next);
      if next.GoesOn? {
        JoinedBefore(calls, sleeps, blocks, next, turn, RunFrom(s, backoff, turns, attempt + 1, next.now));
      }
      calls, sleeps, now := calls + Listed(next.call), sleeps + Listed(next.sleep), next.now;
      if next.GoesOn? || next.tried {
        trace := Record(trace, blocks, Wires(next, turn));
        blocks := blocks + [Wires(next, turn)];
      }
      if next.Ends? {
        return Ran(next.result, calls, sleeps, blocks, now), trace;
      }
      attempt := attempt + 1;
    }
  }

  function BackoffOf(s: Settings): Backoff {
    (retry: nat, retryAfter: Option<real>, jitter: real) => Delay(retry, s.base, s.maxDelay, retryAfter, jitter)
  }

  /** Each attempt within its timeout, without Retry-After or time lost between the steps. */
  predicate Nominal(turns: seq<Turn>, timeout: real) {
    forall i :: 0 <= i < |turns| ==>
      Admissible(turns[i]) && Cost(turns[i]) <= timeout && RetryAfter(turns[i].outcome).None?
  }

  lemma {:induction false} SumConstant(timeout: real, n: nat)
    ensures Sum((_: nat) => timeout, n) == n as real * timeout
  {
    if n > 0 {
      SumConstant(timeout, n - 1);
      assert (n - 1) as real * timeout + timeout == n as real * timeout;
    }
  }

  lemma {:induction false} SumGrows(f: nat -> real, m: nat, n: nat)
    requires m <= n && forall i :: f(i) >= 0.0
    ensures Sum(f, m) <= Sum(f, n)
    decreases n - m
  {
    if m < n { SumGrows(f, m, n - 1); }
  }

  predicate Under(turns: seq<Turn>, backoff: Backoff, ceiling: nat -> real) {
    forall i :: 0 <= i < |turns| ==> 0.0 <= backoff(i, RetryAfter(turns[i].outcome), turns[i].jitter) <= ceiling(i)
  }

  lemma {:induction false} ElapsedUnder(turns: seq<Turn>, backoff: Backoff, ceiling: nat -> real, limit: nat -> real,
                                        n: nat)
    requires n <= |turns| && Under(turns, backoff, ceiling) && forall i :: 0 <= i < |turns| ==>
               Cost(turns[i]) <= limit(i)
    ensures Elapsed(turns, backoff, n) <= Sum(limit, n) + Sum(ceiling, n)
  {
    if n > 0 { ElapsedUnder(turns, backoff, ceiling, limit, n - 1); }
  }

  lemma NominalIsUnder(s: Settings, turns: seq<Turn>, timeout: real)
    requires Nominal(turns, timeout) && s.base >= 0.0 && s.maxDelay > 0.0
    ensures Under(turns, BackoffOf(s), CeilingOf(s.base, s.maxDelay))
  {
    forall i | 0 <= i < |turns|
      ensures 0.0 <= BackoffOf(s)(i, RetryAfter(turns[i].outcome), turns[i].jitter) <= CeilingOf(s.base, s.maxDelay)(i)
    {
      DelayBetween(i, s.base, s.maxDelay, None, turns[i].jitter);
    }
  }

  lemma CeilingsArePositive(base: real, maxDelay: real)
    requires base >= 0.0 && maxDelay > 0.0
    ensures forall i: nat :: CeilingOf(base, maxDelay)(i) >= 0.0
  {
    forall i: nat
      ensures CeilingOf(base, maxDelay)(i) >= 0.0
    {
      DelayBetween(i, base, maxDelay, None, 0.0);
    }
  }

  /** Without a deadline and without Retry-After, `n` attempts that each keep their timeout stay
      within the nominal envelope. */
  lemma WithinEnvelope(s: Settings, turns: seq<Turn>, timeout: real, n: nat)
    requires 1 <= n <= Attempts(s) && n <= |turns| && Nominal(turns, timeout) && timeout > 0.0 && s.base >= 0.0 &&
               s.maxDelay > 0.0
    ensures Elapsed(turns, BackoffOf(s), n - 1) + Cost(turns[n - 1])
              <= Envelope(timeout, Attempts(s), s.base, s.maxDelay)
  {
    NominalIsUnder(s, turns, timeout);
    CeilingsArePositive(s.base, s.maxDelay);
    Sums(turns, BackoffOf(s), CeilingOf(s.base, s.maxDelay), timeout, n, Attempts(s));
  }

  lemma Sums(turns: seq<Turn>, backoff: Backoff, ceiling: nat -> real, timeout: real, n: nat, attempts: nat)
    requires 1 <= n <= attempts && n <= |turns| && timeout > 0.0 && Under(turns, backoff, ceiling) &&
               (forall i: nat :: ceiling(i) >= 0.0)
    requires forall i :: 0 <= i < |turns| ==> Cost(turns[i]) <= timeout
    ensures Elapsed(turns, backoff, n - 1) + Cost(turns[n - 1])
              <= attempts as real * timeout + Sum(ceiling, attempts - 1)
  {
    ElapsedUnder(turns, backoff, ceiling, (_: nat) => timeout, n - 1);
    SumGrows(ceiling, n - 1, attempts - 1);
    Timeouts(timeout, n, attempts);
  }

  /** `n - 1` timeouts and one more are at most `attempts` of them. */
  lemma Timeouts(timeout: real, n: nat, attempts: nat)
    requires 1 <= n <= attempts && timeout > 0.0
    ensures Sum((_: nat) => timeout, n - 1) + timeout <= attempts as real * timeout
  {
    SumConstant(timeout, n - 1);
    assert (n - 1) as real * timeout + timeout == n as real * timeout;
    Product((attempts - n) as real, timeout);
    assert attempts as real * timeout == n as real * timeout + (attempts - n) as real * timeout;
  }


}
