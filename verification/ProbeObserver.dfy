/** The HTTP probe observer of the setup routes, and the ledger's check of what it reports. */
module ProbeObserver {
  import opened Prelude

  datatype Stage = Headers | Body
  datatype Phase = Unknown | ResponseHeaders | ResponseBody | BufferedComplete

  /** A trace event as the observer reads it.  `None` stands for information whose lookup raises or
      has the wrong type; `Foreign` covers connection, proxy, send and close events, `Malformed` every
      other name. */
  datatype Event =
    | Http2
    | Foreign
    | Malformed
    | Started(stage: Stage, post: Option<bool>)
    | Failed(stage: Stage, exception: Option<int>)
    | Completed(stage: Stage, status: Option<int>)

  datatype Pending = Pending(stage: Stage, post: bool)

  datatype Observation = Observation(
    count: nat, valid: bool, phase: Phase, headers: Option<bool>, status: Option<int>, pending: Option<Pending>,
    failedId: Option<int>, failedPhase: Phase, bodyComplete: bool)

  function Reset(count: nat): Observation {
    Observation(count, true, Unknown, None, None, None, None, Unknown, false)
  }

  const Fresh := Reset(0)

  function Invalid(o: Observation): Observation {
    o.(valid := false)
  }

  function OnStarted(o: Observation, stage: Stage, post: Option<bool>): Observation {
    if o.pending.Some? || post.None? then Invalid(o)
    else
      var next := o.(pending := Some(Pending(stage, post.value)));
      if !post.value then next
      else if stage == Headers then next.(headers := Some(false), valid := o.headers.None?)
      else next.(valid := o.headers == Some(true) && !o.bodyComplete)
  }

  function OnEnded(o: Observation, e: Event): Observation
    requires e.Failed? || e.Completed?
  {
    if o.pending.None? || o.pending.value.stage != e.stage then Invalid(o)
    else
      var next := o.(pending := None);
      if !o.pending.value.post then next
      else
        match e
        case Failed(stage, exception) =>
          if exception.None? then Invalid(next)
          else next.(failedId := exception, failedPhase := if stage == Headers then ResponseHeaders else ResponseBody)
        case Completed(stage, status) =>
          if stage == Body then next.(bodyComplete := true)
          else if status.None? || !(100 <= status.value <= 599) then Invalid(next)
          else next.(headers := Some(true), status := status)
  }

  /** `trace`. */
  function OnTrace(o: Observation, e: Event): Observation {
    if !o.valid || e.Foreign? then o
    else if e.Http2? || e.Malformed? || o.failedId.Some? then Invalid(o)
    else if e.Started? then OnStarted(o, e.stage, e.post)
    else OnEnded(o, e)
  }

  /** Whether the cause chain reaches `id` before it ends or repeats. */
  function Reaches(causes: seq<int>, seen: set<int>, id: int): bool {
    causes != [] && causes[0] !in seen && (causes[0] == id || Reaches(causes[1..], seen + {causes[0]}, id))
  }

  /** `finish`; no causes means the call returned. */
  function OnFinish(o: Observation, causes: Option<seq<int>>): Observation {
    if !o.valid then o
    else if causes.None? then
      if o.headers == Some(true) && o.bodyComplete then o.(phase := BufferedComplete) else o
    else if o.failedId.Some? && Reaches(causes.value, {}, o.failedId.value) then o.(phase := o.failedPhase)
    else o
  }

  /** A new POST; another owner of the extensions makes it unobservable. */
  function OnPost(o: Observation, extensionsTaken: bool): Observation {
    Reset(o.count + 1).(valid := !extensionsTaken)
  }

  datatype Snapshot = Snapshot(version: int, phase: Phase, headers: Option<bool>, status: Option<int>, valid: bool,
                               count: nat)

  function Taken(o: Observation): Snapshot {
    if o.valid && o.headers.Some? then Snapshot(1, o.phase, o.headers, o.status, true, o.count)
    else Snapshot(1, Unknown, None, None, false, o.count)
  }

  /** `project_probe_http`: the ledger's closed check, which returns what it accepts. */
  function Project(v: Snapshot): Option<Snapshot> {
    if v.version != 1 || (v.status.Some? && !(100 <= v.status.value <= 599)) || v.count > 1_000_000 then None
    else if !v.valid && (v.phase != Unknown || v.headers.Some? || v.status.Some?) then None
    else if v.valid && (v.headers.None? || v.count == 0) then None
    else if v.headers == Some(true) && v.status.None? then None
    else if v.status.Some? && v.headers != Some(true) then None
    else if (v.phase == ResponseBody || v.phase == BufferedComplete) && v.headers != Some(true) then None
    else if v.phase == ResponseHeaders && v.headers != Some(false) then None
    else Some(v)
  }

  // ---- every sequence

  datatype Input = Post(extensionsTaken: bool) | Trace(event: Event) | Finish(causes: Option<seq<int>>)

  function Next(o: Observation, i: Input): Observation {
    match i
    case Post(taken) => OnPost(o, taken)
    case Trace(e) => OnTrace(o, e)
    case Finish(causes) => OnFinish(o, causes)
  }

  function Observe(o: Observation, inputs: seq<Input>): Observation
    decreases |inputs|
  {
    if inputs == [] then o else Observe(Next(o, inputs[0]), inputs[1..])
  }

  function Posts(inputs: seq<Input>): nat {
    if inputs == [] then 0 else (if inputs[0].Post? then 1 else 0) + Posts(inputs[1..])
  }

  /** While an observation is valid, its facts hang together. */
  predicate Coherent(o: Observation) {
    o.valid ==>
      && (o.status.Some? <==> o.headers == Some(true))
      && (o.status.Some? ==> 100 <= o.status.value <= 599)
      && (o.bodyComplete ==> o.headers == Some(true))
      && (o.pending.Some? && o.pending.value.post ==>
            if o.pending.value.stage == Headers then o.headers == Some(false) else o.headers == Some(true))
      && (o.failedId.Some? ==> o.pending.None? && PhaseFits(o.failedPhase, o.headers) && o.failedPhase != Unknown)
      && PhaseFits(o.phase, o.headers)
      && (o.phase == ResponseHeaders ==> o.failedId.Some?)
  }

  predicate PhaseFits(phase: Phase, headers: Option<bool>) {
    && (phase == ResponseHeaders ==> headers == Some(false))
    && (phase == ResponseBody || phase == BufferedComplete ==> headers == Some(true))
  }

  lemma NextKeeps(o: Observation, i: Input)
    requires Coherent(o)
    ensures Coherent(Next(o, i))
  {
  }

  lemma {:induction false} ObserveKeeps(o: Observation, inputs: seq<Input>)
    requires Coherent(o)
    ensures Coherent(Observe(o, inputs)) && Observe(o, inputs).count == o.count + Posts(inputs)
    decreases |inputs|
  {
    if inputs != [] {
      NextKeeps(o, inputs[0]);
      ObserveKeeps(Next(o, inputs[0]), inputs[1..]);
    }
  }

  /** For every sequence of POSTs, trace events and completions, well-formed or not: the ledger takes
      the snapshot, unchanged, exactly when the POST count is within its limit and a valid
      observation has seen a POST. */
  lemma SnapshotAcceptedIff(inputs: seq<Input>)
    ensures var v := Taken(Observe(Fresh, inputs));
            Project(v) == if Posts(inputs) <= 1_000_000 && (v.valid ==> Posts(inputs) > 0) then Some(v) else None
  {
    ObserveKeeps(Fresh, inputs);
  }

  /** The trace hook is installed by a POST, so in the program every sequence starts with one. */
  lemma SnapshotIsAccepted(inputs: seq<Input>)
    requires inputs != [] ==> inputs[0].Post?
    requires Posts(inputs) <= 1_000_000
    ensures Project(Taken(Observe(Fresh, inputs))) == Some(Taken(Observe(Fresh, inputs)))
  {
    SnapshotAcceptedIff(inputs);
  }

  /** A trace event that belongs to no POST makes a snapshot the ledger refuses. */
  lemma UnpostedIsRefused()
    ensures var inputs := [Trace(Started(Headers, Some(true)))]; Project(Taken(Observe(Fresh, inputs))) == None
  {
    var inputs := [Trace(Started(Headers, Some(true)))];
    assert inputs[1..] == [] && Posts(inputs[1..]) == 0;
    assert Observe(Next(Fresh, inputs[0]), []) == Next(Fresh, inputs[0]);
    assert Taken(Observe(Fresh, inputs)).valid;
    SnapshotAcceptedIff(inputs);
  }

  /** A reported failure phase names the stage that failed last, with its exception in the chain. */
  lemma PhaseIsEarned(o: Observation, causes: seq<int>)
    requires Coherent(o) && o.valid && o.phase == Unknown && OnFinish(o, Some(causes)).phase != Unknown
    ensures o.failedId.Some? && o.failedId.value in causes && OnFinish(o, Some(causes)).phase == o.failedPhase
  {
    ReachesIn(causes, {}, o.failedId.value);
  }

  lemma {:induction false} ReachesIn(causes: seq<int>, seen: set<int>, id: int)
    requires Reaches(causes, seen, id)
    ensures id in causes
  {
    if causes[0] != id { ReachesIn(causes[1..], seen + {causes[0]}, id); }
  }

  // ---- ordinary requests

  /** The inputs without the events of connection, proxy, sending and closing. */
  function Own(inputs: seq<Input>): seq<Input> {
    if inputs == [] then []
    else (if inputs[0] == Trace(Foreign) then [] else [inputs[0]]) + Own(inputs[1..])
  }

  lemma {:induction false} ForeignIsIgnored(o: Observation, inputs: seq<Input>)
    ensures Observe(o, inputs) == Observe(o, Own(inputs))
    decreases |inputs|
  {
    if inputs != [] {
      ForeignIsIgnored(Next(o, inputs[0]), inputs[1..]);
      if inputs[0] == Trace(Foreign) {
        assert Own(inputs) == Own(inputs[1..]);
      } else {
        assert Own(inputs)[1..] == Own(inputs[1..]);
      }
    }
  }

  lemma ObserveFirst(o: Observation, i: Input, rest: seq<Input>)
    ensures Observe(o, [i] + rest) == Observe(Next(o, i), rest)
  {
    assert ([i] + rest)[1..] == rest;
  }

  /** A POST up to the headers of its answer. */
  function Exchange(status: int): seq<Input> {
    [Post(false), Trace(Started(Headers, Some(true))), Trace(Completed(Headers, Some(status)))]
  }

  function Answered(o: Observation, status: int): Observation {
    Next(Next(Next(o, Post(false)), Trace(Started(Headers, Some(true)))), Trace(Completed(Headers, Some(status))))
  }

  lemma ObserveAnswered(o: Observation, status: int, rest: seq<Input>)
    ensures Observe(o, Exchange(status) + rest) == Observe(Answered(o, status), rest)
  {
    var a, b, c := Post(false), Trace(Started(Headers, Some(true))), Trace(Completed(Headers, Some(status)));
    assert [a, b, c] + rest == [a] + ([b] + ([c] + rest));
    ObserveFirst(o, a, [b] + ([c] + rest));
    ObserveFirst(Next(o, a), b, [c] + rest);
    ObserveFirst(Next(Next(o, a), b), c, rest);
  }

  /** Whatever came before and whatever connection events come between: a POST whose headers and body
      arrive and whose call returns is reported complete, with its status. */
  lemma OrdinaryPost(o: Observation, inputs: seq<Input>, status: int, reported: Option<int>)
    requires 100 <= status <= 599
    requires Own(inputs) == Exchange(status)
                            + [Trace(Started(Body, Some(true))), Trace(Completed(Body, reported)), Finish(None)]
    ensures Taken(Observe(o, inputs)) == Snapshot(1, BufferedComplete, Some(true), Some(status), true, o.count + 1)
  {
    var d, e, f := Trace(Started(Body, Some(true))), Trace(Completed(Body, reported)), Finish(None);
    var got := Answered(o, status);
    ForeignIsIgnored(o, inputs);
    ObserveAnswered(o, status, [d, e, f]);
    assert [d, e, f] == [d] + ([e] + ([f] + []));
    ObserveFirst(got, d, [e] + ([f] + []));
    ObserveFirst(Next(got, d), e, [f] + []);
    ObserveFirst(Next(Next(got, d), e), f, []);
  }

  /** One whose body fails, with the failure among the causes of the raised exception, is reported as
      failed in the body, with the status it had. */
  lemma BodyFailure(o: Observation, inputs: seq<Input>, status: int, id: int, causes: seq<int>)
    requires 100 <= status <= 599 && Chain(causes) && id in causes
    requires Own(inputs) == Exchange(status)
                            + [Trace(Started(Body, Some(true))), Trace(Failed(Body, Some(id))), Finish(Some(causes))]
    ensures Taken(Observe(o, inputs)) == Snapshot(1, ResponseBody, Some(true), Some(status), true, o.count + 1)
  {
    var d, e, f := Trace(Started(Body, Some(true))), Trace(Failed(Body, Some(id))), Finish(Some(causes));
    var got := Answered(o, status);
    ForeignIsIgnored(o, inputs);
    ObserveAnswered(o, status, [d, e, f]);
    assert [d, e, f] == [d] + ([e] + ([f] + []));
    ObserveFirst(got, d, [e] + ([f] + []));
    ObserveFirst(Next(got, d), e, [f] + []);
    ObserveFirst(Next(Next(got, d), e), f, []);
    ReachesIff(causes, {}, id);
  }

  /** One whose headers never come is reported as failed there, without a status. */
  lemma HeaderFailure(o: Observation, inputs: seq<Input>, id: int, causes: seq<int>)
    requires Chain(causes) && id in causes
    requires Own(inputs) == [Post(false), Trace(Started(Headers, Some(true))), Trace(Failed(Headers, Some(id)))]
                            + [Finish(Some(causes))]
    ensures Taken(Observe(o, inputs)) == Snapshot(1, ResponseHeaders, Some(false), None, true, o.count + 1)
  {
    var a, b, c := Post(false), Trace(Started(Headers, Some(true))), Trace(Failed(Headers, Some(id)));
    var f := Finish(Some(causes));
    ForeignIsIgnored(o, inputs);
    assert [a, b, c] + [f] == [a] + ([b] + ([c] + ([f] + [])));
    ObserveFirst(o, a, [b] + ([c] + ([f] + [])));
    ObserveFirst(Next(o, a), b, [c] + ([f] + []));
    ObserveFirst(Next(Next(o, a), b), c, [f] + []);
    ObserveFirst(Next(Next(Next(o, a), b), c), f, []);
    ReachesIff(causes, {}, id);
  }

  /** A chain of causes that does not come back to itself. */
  predicate Chain(causes: seq<int>) {
    forall i, j :: 0 <= i < j < |causes| ==> causes[i] != causes[j]
  }

  /** The walk up such a chain finds exactly its members. */
  lemma {:induction false} ReachesIff(causes: seq<int>, seen: set<int>, id: int)
    requires Chain(causes) && forall i :: 0 <= i < |causes| ==> causes[i] !in seen
    ensures Reaches(causes, seen, id) <==> id in causes
  {
    if causes != [] { ReachesIff(causes[1..], seen + {causes[0]}, id); }
  }

  /** `_ProbeHTTPObservation`. */
  class Observer {
    var o: Observation

    constructor ()
      ensures o == Fresh && Coherent(o)
    {
      o := Fresh;
    }

    method BeginPost(extensionsTaken: bool)
      requires Coherent(o)
      modifies this
      ensures o == Next(old(o), Post(extensionsTaken)) && Coherent(o)
    {
      o := Reset(o.count).(count := o.count + 1);
      if extensionsTaken { o := Invalid(o); }
    }

    method TraceEvent(e: Event)
      requires Coherent(o)
      modifies this
      ensures o == Next(old(o), Trace(e)) && Coherent(o)
    {
      NextKeeps(o, Trace(e));
      o := OnTrace(o, e);
    }

    method FinishOk()
      requires Coherent(o)
      modifies this
      ensures o == Next(old(o), Finish(None)) && Coherent(o)
    {
      NextKeeps(o, Finish(None));
      if o.valid && o.headers == Some(true) && o.bodyComplete {
        o := o.(phase := BufferedComplete);
      }
    }

    /** The walk up the cause chain. */
    method FinishWith(causes: seq<int>)
      requires Coherent(o)
      modifies this
      ensures o == Next(old(o), Finish(Some(causes))) && Coherent(o)
    {
      NextKeeps(o, Finish(Some(causes)));
      if !o.valid || o.failedId.None? { return; }
      var seen: set<int> := {};
      var i := 0;
      assert causes[0..] == causes;
      while i < |causes| && causes[i] !in seen
        invariant 0 <= i <= |causes| && o == old(o)
        invariant Reaches(causes, {}, o.failedId.value) == Reaches(causes[i..], seen, o.failedId.value)
      {
        assert causes[i..][1..] == causes[i + 1..];
        if causes[i] == o.failedId.value {
          o := o.(phase := o.failedPhase);
          return;
        }
        seen := seen + {causes[i]};
        i := i + 1;
      }
    }

    method Snap() returns (v: Snapshot)
      requires Coherent(o)
      ensures v == Taken(o)
      ensures 0 < o.count <= 1_000_000 ==> Project(v) == Some(v)
    {
      v := Taken(o);
    }
  }
}
