/** Absolute trace counters: flushed again and again into a store that keeps the larger value. */
module TraceCounters {
  import opened Prelude

  /** Events and bytes of each precision class. */
  datatype Totals = Totals(persisted: nat, persistedBytes: nat, dropped: nat, droppedBytes: nat, risk: nat,
                           riskBytes: nat)

  const Zero := Totals(0, 0, 0, 0, 0, 0)

  predicate AtMost(a: Totals, b: Totals) {
    && a.persisted <= b.persisted && a.persistedBytes <= b.persistedBytes && a.dropped <= b.dropped
    && a.droppedBytes <= b.droppedBytes && a.risk <= b.risk && a.riskBytes <= b.riskBytes
  }

  function Larger(a: nat, b: nat): nat {
    if a < b then b else a
  }

  /** The store's conflict rule, component by component. */
  function Merge(a: Totals, b: Totals): Totals {
    Totals(Larger(a.persisted, b.persisted), Larger(a.persistedBytes, b.persistedBytes), Larger(a.dropped, b.dropped),
           Larger(a.droppedBytes, b.droppedBytes), Larger(a.risk, b.risk), Larger(a.riskBytes, b.riskBytes))
  }

  type Table = map<string, Totals>

  function Row(t: Table, k: string): Totals {
    if k in t then t[k] else Zero
  }

  predicate Below(a: Table, b: Table) {
    a.Keys <= b.Keys && forall k :: k in a ==> k in b && AtMost(a[k], b[k])
  }

  datatype Class = Persisted | KnownDrop | AtRisk

  function Bumped(t: Totals, c: Class, size: nat): Totals {
    match c
    case Persisted => t.(persisted := t.persisted + 1, persistedBytes := t.persistedBytes + size)
    case KnownDrop => t.(dropped := t.dropped + 1, droppedBytes := t.droppedBytes + size)
    case AtRisk => t.(risk := t.risk + 1, riskBytes := t.riskBytes + size)
  }

  datatype Measured = Measured(key: string, size: nat)

  /** `_record_trace_stats`. */
  function Recorded(totals: Table, events: seq<Measured>, c: Class): Table
    decreases |events|
  {
    if events == [] then totals
    else Recorded(totals[events[0].key := Bumped(Row(totals, events[0].key), c, events[0].size)], events[1..], c)
  }

  /** What must go to the store: the rows that differ from what was last acknowledged. */
  function Dirty(totals: Table, flushed: Table): Table {
    map k | k in totals && !(k in flushed && flushed[k] == totals[k]) :: totals[k]
  }

  function Events(t: Totals, c: Class): nat {
    match c
    case Persisted => t.persisted
    case KnownDrop => t.dropped
    case AtRisk => t.risk
  }

  function Bytes(t: Totals, c: Class): nat {
    match c
    case Persisted => t.persistedBytes
    case KnownDrop => t.droppedBytes
    case AtRisk => t.riskBytes
  }

  function Mine(events: seq<Measured>, k: string): seq<nat> {
    if events == [] then [] else (if events[0].key == k then [events[0].size] else []) + Mine(events[1..], k)
  }

  function Sum(s: seq<nat>): nat {
    if s == [] then 0 else s[0] + Sum(s[1..])
  }

  /** Recording adds each key's events and bytes to its own class and leaves the others alone. */
  lemma {:induction false} RecordedExactly(totals: Table, events: seq<Measured>, c: Class, k: string, c': Class)
    ensures var before, after := Row(totals, k), Row(Recorded(totals, events, c), k);
            && Events(after, c') == Events(before, c') + (if c' == c then |Mine(events, k)| else 0)
            && Bytes(after, c') == Bytes(before, c') + (if c' == c then Sum(Mine(events, k)) else 0)
    decreases |events|
  {
    if events != [] {
      var e := events[0];
      RecordedExactly(totals[e.key := Bumped(Row(totals, e.key), c, e.size)], events[1..], c, k, c');
      var rest := Mine(events[1..], k);
      assert [] + rest == rest && ([e.size] + rest)[1..] == rest;
    }
  }

  // ---- flushes in flight

  /** One flush: its snapshot, the rows the store has merged so far, and whether the caller still
      waits for it.  A failed call may have been applied, or be applied later. */
  datatype Flight = Flight(snapshot: Table, applied: set<string>, waiting: bool)

  /** `checked` is the totals a stopping writer found clean, `stopped` its tombstone. */
  datatype State = State(totals: Table, flushed: Table, stored: Table, flights: seq<Flight>, failures: nat,
                         checked: Option<Table>, stopped: bool)

  const Init := State(map[], map[], map[], [], 0, None, false)

  datatype Step =
    | Record(events: seq<Measured>, class_: Class)
    | Snap
    | Apply(i: nat, k: string)
    | Ack(i: nat)
    | Fail(i: nat)
    | Check
    | Tombstone

  predicate Enabled(s: State, step: Step) {
    match step
    case Record(_, _) => true
    case Snap => true
    case Apply(i, k) => i < |s.flights| && k in s.flights[i].snapshot
    case Ack(i) => i < |s.flights| && s.flights[i].waiting && s.flights[i].applied == s.flights[i].snapshot.Keys
    case Fail(i) => i < |s.flights| && s.flights[i].waiting
    case Check => Dirty(s.totals, s.flushed) == map[] && s.failures == 0
    case Tombstone => s.checked.Some?
  }

  function Do(s: State, step: Step): State
    requires Enabled(s, step)
  {
    match step
    case Record(events, c) => s.(totals := Recorded(s.totals, events, c))
    case Snap => s.(flights := s.flights + [Flight(Dirty(s.totals, s.flushed), {}, true)])
    case Apply(i, k) =>
      s.(stored := s.stored[k := Merge(Row(s.stored, k), s.flights[i].snapshot[k])],
         flights := s.flights[i := s.flights[i].(applied := s.flights[i].applied + {k})])
    case Ack(i) =>
      s.(flushed := s.flushed + s.flights[i].snapshot, flights := s.flights[i := s.flights[i].(waiting := false)],
        failures := 0)
    case Fail(i) => s.(flights := s.flights[i := s.flights[i].(waiting := false)], failures := s.failures + 1)
    case Check => s.(checked := Some(s.totals))
    case Tombstone => s.(stopped := true)
  }

  ghost predicate Runs(s: State, steps: seq<Step>)
    decreases |steps|
  {
    steps == [] || (Enabled(s, steps[0]) && Runs(Do(s, steps[0]), steps[1..]))
  }

  function After(s: State, steps: seq<Step>): State
    requires Runs(s, steps)
    decreases |steps|
  {
    if steps == [] then s else After(Do(s, steps[0]), steps[1..])
  }

  // ---- what every step keeps

  predicate FlightOk(s: State, f: Flight) {
    && Below(f.snapshot, s.totals)
    && forall k :: k in f.applied ==>
         k in f.snapshot && k in s.stored && AtMost(f.snapshot[k], s.stored[k])
  }

  predicate Inv(s: State) {
    && Below(s.flushed, s.stored) && Below(s.stored, s.totals)
    && (forall i :: 0 <= i < |s.flights| ==> FlightOk(s, s.flights[i]))
    && (s.checked.Some? ==> Below(s.checked.value, s.stored))
    && (s.stopped ==> s.checked.Some?)
  }

  lemma {:induction false} RecordedGrows(totals: Table, events: seq<Measured>, c: Class)
    ensures Below(totals, Recorded(totals, events, c))
    decreases |events|
  {
    if events != [] {
      var next := totals[events[0].key := Bumped(Row(totals, events[0].key), c, events[0].size)];
      assert Below(totals, next);
      RecordedGrows(next, events[1..], c);
      BelowTrans(totals, next, Recorded(next, events[1..], c));
    }
  }

  lemma BelowTrans(a: Table, b: Table, c: Table)
    requires Below(a, b) && Below(b, c)
    ensures Below(a, c)
  {
    forall k | k in a
      ensures k in c && AtMost(a[k], c[k])
    {
      assert k in b;
    }
  }

  lemma KeepsRecord(s: State, step: Step)
    requires Inv(s) && step.Record?
    ensures Inv(Do(s, step))
  {
    var t := Do(s, step);
    RecordedGrows(s.totals, step.events, step.class_);
    BelowTrans(s.stored, s.totals, t.totals);
    forall i | 0 <= i < |s.flights|
      ensures FlightOk(t, s.flights[i])
    {
      assert FlightOk(s, s.flights[i]);
      BelowTrans(s.flights[i].snapshot, s.totals, t.totals);
    }
  }

  lemma MergeRow(stored: Table, k: string, v: Totals, totals: Table)
    requires Below(stored, totals) && k in totals && AtMost(v, totals[k])
    ensures var t := stored[k := Merge(Row(stored, k), v)]; Below(stored, t) && Below(t, totals) && AtMost(v, t[k])
  {
  }

  lemma KeepsApply(s: State, step: Step)
    requires Inv(s) && step.Apply? && Enabled(s, step)
    ensures Inv(Do(s, step))
  {
    var t := Do(s, step);
    var k := step.k;
    assert FlightOk(s, s.flights[step.i]);
    MergeRow(s.stored, k, s.flights[step.i].snapshot[k], s.totals);
    BelowTrans(s.flushed, s.stored, t.stored);
    if s.checked.Some? { BelowTrans(s.checked.value, s.stored, t.stored); }
    forall i | 0 <= i < |t.flights|
      ensures FlightOk(t, t.flights[i])
    {
      assert FlightOk(s, s.flights[i]);
      Raised(s, t, s.flights[i]);
    }
  }

  lemma Raised(s: State, t: State, f: Flight)
    requires FlightOk(s, f) && t.totals == s.totals && Below(s.stored, t.stored)
    ensures FlightOk(t, f)
  {
    forall k | k in f.applied
      ensures k in t.stored && AtMost(f.snapshot[k], t.stored[k])
    {
      assert k in s.stored;
    }
  }

  lemma KeepsAck(s: State, step: Step)
    requires Inv(s) && step.Ack? && Enabled(s, step)
    ensures Inv(Do(s, step))
  {
    var f := s.flights[step.i];
    assert FlightOk(s, f);
    assert Below(f.snapshot, s.stored);
    assert Below(s.flushed + f.snapshot, s.stored);
  }

  lemma StepKeeps(s: State, step: Step)
    requires Inv(s) && Enabled(s, step)
    ensures Inv(Do(s, step))
  {
    match step
    case Record(_, _) => KeepsRecord(s, step);
    case Apply(_, _) => KeepsApply(s, step);
    case Ack(_) => KeepsAck(s, step);
    case Check => CleanMeansStored(s);
    case _ =>
  }

  /** A zero dirty count means the store holds exactly the totals. */
  lemma CleanMeansStored(s: State)
    requires Inv(s) && Dirty(s.totals, s.flushed) == map[]
    ensures s.stored == s.totals
  {
    forall k | k in s.totals
      ensures k in s.stored && s.stored[k] == s.totals[k]
    {
      assert k !in Dirty(s.totals, s.flushed);
      assert AtMost(s.flushed[k], s.stored[k]) && AtMost(s.stored[k], s.totals[k]);
    }
  }

  lemma {:induction false} RunKeeps(s: State, steps: seq<Step>)
    requires Inv(s) && Runs(s, steps)
    ensures Inv(After(s, steps))
    decreases |steps|
  {
    if steps != [] {
      StepKeeps(s, steps[0]);
      RunKeeps(Do(s, steps[0]), steps[1..]);
    }
  }

  /** Under failed, ambiguous, late and concurrent flushes: acknowledged, stored and counted are
      ordered for every key, and a clean table is stored exactly. */
  lemma FlushesAreIdempotent(steps: seq<Step>)
    requires Runs(Init, steps)
    ensures var s := After(Init, steps);
            && Below(s.flushed, s.stored) && Below(s.stored, s.totals)
            && (Dirty(s.totals, s.flushed) == map[] ==> s.stored == s.totals)
  {
    RunKeeps(Init, steps);
    var s := After(Init, steps);
    if Dirty(s.totals, s.flushed) == map[] { CleanMeansStored(s); }
  }

  /** A tombstone is written only after a check, and the store holds all that was counted then. */
  lemma TombstoneMeansDrained(steps: seq<Step>)
    requires Runs(Init, steps) && After(Init, steps).stopped
    ensures var s := After(Init, steps); s.checked.Some? && Below(s.checked.value, s.stored)
  {
    RunKeeps(Init, steps);
  }

  // ---- a flush that gets through drains

  /** What an acknowledged flush leaves dirty: nothing, if nothing was recorded meanwhile. */
  lemma AckedIsClean(totals: Table, flushed: Table)
    ensures Dirty(totals, flushed + Dirty(totals, flushed)) == map[]
  {
    var dirty := Dirty(totals, flushed);
    forall k | k in totals
      ensures k in flushed + dirty && (flushed + dirty)[k] == totals[k]
    {
      if k !in dirty { assert k in flushed && flushed[k] == totals[k]; }
    }
  }

  lemma {:induction false} RunsThen(s: State, a: seq<Step>, b: seq<Step>)
    requires Runs(s, a) && Runs(After(s, a), b)
    ensures Runs(s, a + b) && After(s, a + b) == After(After(s, a), b)
    decreases |a|
  {
    if a == [] {
      assert a + b == b;
    } else {
      assert (a + b)[1..] == a[1..] + b;
      RunsThen(Do(s, a[0]), a[1..], b);
    }
  }

  /** The same but for the store and what flight `i` has applied. */
  predicate Applied(s: State, t: State, i: nat, keys: set<string>)
    requires i < |s.flights|
  {
    && t.totals == s.totals && t.flushed == s.flushed && |t.flights| == |s.flights|
    && t.flights[i] == s.flights[i].(applied := s.flights[i].applied + keys)
  }

  lemma {:induction false} ApplyAll(s: State, i: nat, keys: set<string>) returns (steps: seq<Step>)
    requires i < |s.flights| && keys <= s.flights[i].snapshot.Keys
    ensures Runs(s, steps) && Applied(s, After(s, steps), i, keys)
    decreases |keys|
  {
    steps := [];
    if keys == {} {
      assert s.flights[i].applied + keys == s.flights[i].applied;
    } else {
      var k :| k in keys;
      var t := Do(s, Apply(i, k));
      var rest := ApplyAll(t, i, keys - {k});
      steps := [Apply(i, k)] + rest;
      assert steps[1..] == rest;
      assert s.flights[i].applied + {k} + (keys - {k}) == s.flights[i].applied + keys;
    }
  }

  lemma RunsOne(s: State, step: Step)
    requires Enabled(s, step)
    ensures Runs(s, [step]) && After(s, [step]) == Do(s, step)
  {
    assert [step][1..] == [];
  }

  /** From every reachable state one flush that gets through, then the check, lets the writer stop with
      everything counted in the store. */
  lemma DrainHappens(s: State) returns (steps: seq<Step>)
    requires Inv(s)
    ensures Runs(s, steps) && After(s, steps).stopped && After(s, steps).stored == After(s, steps).totals == s.totals
  {
    var i := |s.flights|;
    var snapped := Do(s, Snap);
    RunsOne(s, Snap);
    var applies := ApplyAll(snapped, i, snapped.flights[i].snapshot.Keys);
    RunsThen(s, [Snap], applies);
    steps := [Snap] + applies;
    var applied := After(s, steps);
    RunKeeps(s, steps);
    var acked := Do(applied, Ack(i));
    AckedIsClean(s.totals, s.flushed);
    RunsOne(applied, Ack(i));
    RunsThen(s, steps, [Ack(i)]);
    steps := steps + [Ack(i)];
    StepKeeps(applied, Ack(i));
    CleanMeansStored(acked);
    RunsOne(acked, Check);
    RunsThen(s, steps, [Check]);
    steps := steps + [Check];
    RunsOne(Do(acked, Check), Tombstone);
    RunsThen(s, steps, [Tombstone]);
    steps := steps + [Tombstone];
  }

  /** Applying a snapshot again changes nothing. */
  lemma ReplayIsNoOp(s: State, i: nat, k: string)
    requires Inv(s) && i < |s.flights| && k in s.flights[i].applied
    ensures Enabled(s, Apply(i, k)) && Do(s, Apply(i, k)) == s
  {
    var f := s.flights[i];
    assert FlightOk(s, f);
    assert Merge(s.stored[k], f.snapshot[k]) == s.stored[k];
    assert f.applied + {k} == f.applied;
    assert s.flights[i := f] == s.flights;
  }

  /** The counters behind their lock. */
  class Counters {
    var totals: Table

    constructor ()
      ensures totals == map[]
    {
      totals := map[];
    }

    method RecordAll(events: seq<Measured>, c: Class)
      modifies this
      ensures totals == Recorded(old(totals), events, c)
    {
      var i := 0;
      assert events[0..] == events;
      while i < |events|
        invariant 0 <= i <= |events|
        invariant Recorded(totals, events[i..], c) == Recorded(old(totals), events, c)
      {
        assert events[i..][1..] == events[i + 1..];
        totals := totals[events[i].key := Bumped(Row(totals, events[i].key), c, events[i].size)];
        i := i + 1;
      }
    }
  }
}
