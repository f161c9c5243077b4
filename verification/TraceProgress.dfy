/** What the trace queue owes its callers: no event is turned away needlessly, and every event settles. */
module TraceProgress {
  import opened Prelude
  import opened TraceQueue

  // ---- bounds and drops

  function All(): Item -> bool {
    (x: Item) => true
  }

  lemma {:induction false} CountAll(s: seq<Item>)
    ensures Count(s, All()) == |s|
  {
    if s != [] { CountAll(s[1..]); }
  }

  /** At most 5000 events queued and 100 in a batch. */
  predicate Bounded(s: State) {
    |s.queue| <= 5000 && |s.batch| <= 100
  }

  lemma {:induction false} QueueIsBounded(s: State, steps: seq<Step>)
    requires Runs(s, steps) && Bounded(s)
    ensures Bounded(After(s, steps))
    decreases |steps|
  {
    if steps != [] { QueueIsBounded(Do(s, steps[0]), steps[1..]); }
  }

  /** Nobody was turned away. */
  predicate Welcoming(s: State) {
    s.refused == [] && s.undone == [] && s.lost == []
  }

  lemma WelcomingStep(s: State, step: Step)
    requires Enabled(s, step) && Welcoming(s) && Conserved(s, All()) && |s.begun| <= 5000
    ensures Welcoming(Do(s, step))
  {
    if step.Full? {
      CountAll(s.begun);
      CountAll(s.counted);
      CountAll(s.queue);
    }
  }

  lemma {:induction false} BegunPrefix(s: State, steps: seq<Step>)
    requires Runs(s, steps)
    ensures s.begun <= After(s, steps).begun
    decreases |steps|
  {
    if steps != [] {
      BegunGrows(s, steps[0]);
      BegunPrefix(Do(s, steps[0]), steps[1..]);
    }
  }

  lemma {:induction false} StaysWelcoming(s: State, steps: seq<Step>)
    requires Runs(s, steps) && Welcoming(s) && Conserved(s, All()) && |After(s, steps).begun| <= 5000
    ensures Welcoming(After(s, steps))
    decreases |steps|
  {
    if steps != [] {
      BegunPrefix(s, steps);
      WelcomingStep(s, steps[0]);
      KeepsConserved(s, steps[0], All());
      StaysWelcoming(Do(s, steps[0]), steps[1..]);
    }
  }

  /** Whatever the threads do: while no more than 5000 events have been offered, none is dropped. */
  lemma NoNeedlessDrop(steps: seq<Step>)
    requires Runs(Init, steps) && |After(Init, steps).begun| <= 5000
    ensures var s := After(Init, steps); s.lost == [] && s.undone == [] && s.refused == []
  {
    StaysWelcoming(Init, steps);
  }

  // ---- every event settles

  predicate Steady(s: State) {
    && (s.hand != Empty ==> s.flushing && Count(s.todo, Of(s.hand.uid)) > 0)
    && (s.flushing ==> s.batch != [])
    && (!s.flushing ==> s.todo == s.batch)
  }

  function HandWork(h: Hand): nat {
    match h
    case Empty => 2
    case Took(_, _) => 1
    case TookBoth(_, _, _) => 0
  }

  /** The work left. */
  function Work(s: State): nat {
    10 * |s.counted| + 8 * |s.queue| + 4 * |s.refused| + 2 * |s.undone| + 2 * |s.batch| + 4 * |s.todo|
    + One(!s.flushing) + HandWork(s.hand)
  }

  lemma {:induction false} KeepLength(s: seq<Item>, q: Item -> bool)
    ensures |Keep(s, Not(q))| + Count(s, q) == |s|
  {
    if s != [] { KeepLength(s[1..], q); }
  }

  /** Without new events, every step does some of it. */
  lemma StepWorks(s: State, step: Step)
    requires Enabled(s, step) && Steady(s) && !step.Raise?
    ensures Work(Do(s, step)) < Work(s)
  {
    match step
    case Skip(u) => KeepLength(s.todo, Of(u));
    case Insert(_) => KeepLength(s.todo, Of(s.hand.uid));
    case _ =>
  }

  lemma StaysSteady(s: State, step: Step)
    requires Enabled(s, step) && Steady(s)
    ensures Steady(Do(s, step))
  {
  }

  lemma {:induction false} RunIsSteady(s: State, steps: seq<Step>)
    requires Runs(s, steps) && Steady(s)
    ensures Steady(After(s, steps))
    decreases |steps|
  {
    if steps != [] {
      StaysSteady(s, steps[0]);
      RunIsSteady(Do(s, steps[0]), steps[1..]);
    }
  }

  predicate Calm(steps: seq<Step>) {
    forall i :: 0 <= i < |steps| ==> !steps[i].Raise?
  }

  lemma {:induction false} CalmRunsAreShort(s: State, steps: seq<Step>)
    requires Runs(s, steps) && Steady(s) && Calm(steps)
    ensures |steps| + Work(After(s, steps)) <= Work(s)
    decreases |steps|
  {
    if steps != [] {
      StepWorks(s, steps[0]);
      StaysSteady(s, steps[0]);
      CalmRunsAreShort(Do(s, steps[0]), steps[1..]);
    }
  }

  /** Nothing is on its way. */
  predicate Quiet(s: State) {
    s.counted == [] && s.refused == [] && s.undone == [] && s.queue == [] && s.batch == []
  }

  /** Unless all is quiet, some step other than a new event can be taken. */
  lemma NeverStuck(s: State) returns (step: Step)
    requires Steady(s) && !Quiet(s)
    ensures Enabled(s, step) && !step.Raise?
  {
    if s.counted != [] {
      step := if |s.queue| < QUEUE_MAX then Put(0) else Full(0);
    } else if s.refused != [] {
      step := Lower(0);
    } else if s.undone != [] {
      step := RecordDrop(0);
    } else if s.flushing {
      match s.hand
      case Took(_, _) => step := TakeAtRisk;
      case TookBoth(_, _, _) => step := Insert(true);
      case Empty => step := if s.todo == [] then Finish else TakeDropped(s.todo[0].uid);
    } else {
      step := if s.batch != [] then Flush else Get;
    }
  }

  /** Once quiet, every counter is back at zero and every event offered has met its fate. */
  lemma QuietIsSettled(steps: seq<Step>, x: Item)
    requires Runs(Init, steps) && Quiet(After(Init, steps))
    ensures var s := After(Init, steps);
            && Value(s.pending, x.uid) == 0
            && (x in s.begun ==>
                  x in s.fates.stored || x in s.fates.unknown || x in s.fates.skipped || x in s.lost)
  {
    PendingIsInFlight(steps, x.uid);
    if x in After(Init, steps).begun { ZeroBarrier(steps, [], x); }
  }

  /** Every event settles: from any state a run without new events is at most `Work` steps long, and
      one that can go no further has left every counter at zero and every event at its fate. */
  lemma EveryEventSettles(before: seq<Step>, after: seq<Step>, x: Item)
    requires Runs(Init, before) && Runs(After(Init, before), after) && Calm(after)
    ensures |after| <= Work(After(Init, before))
    ensures var t := After(After(Init, before), after);
            (forall step :: Enabled(t, step) ==> step.Raise?) ==>
              && Value(t.pending, x.uid) == 0
              && (x in t.begun ==>
                    x in t.fates.stored || x in t.fates.unknown || x in t.fates.skipped || x in t.lost)
  {
    var s := After(Init, before);
    RunIsSteady(Init, before);
    CalmRunsAreShort(s, after);
    RunIsSteady(s, after);
    var t := After(s, after);
    if forall step :: Enabled(t, step) ==> step.Raise? {
      if !Quiet(t) { var step := NeverStuck(t); }
      RunsOn(Init, before, after);
      QuietIsSettled(before + after, x);
    }
  }

  lemma {:induction false} RunsOn(s: State, a: seq<Step>, b: seq<Step>)
    requires Runs(s, a) && Runs(After(s, a), b)
    ensures Runs(s, a + b) && After(s, a + b) == After(After(s, a), b)
    decreases |a|
  {
    if a == [] {
      assert a + b == b;
    } else {
      assert (a + b)[1..] == a[1..] + b;
      RunsOn(Do(s, a[0]), a[1..], b);
    }
  }
}
