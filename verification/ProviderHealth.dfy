/** Provider health over whole histories: the 48-hour and 1-hour rule, and the daily probe. */
module ProviderHealth {
  import opened Prelude

  const UNHEALTHY_AFTER := 48.0 * 3600.0
  const CONFIRM := 3600.0
  const PROBE_INTERVAL := 24.0 * 3600.0

  /** A row of the health table.  Zero stands for a missing time; a missing row is `Fresh`. */
  datatype Row = Row(needsUser: bool, lastSuccess: real, lastFailure: real, userBlamed: bool, segment: real,
                     lastProbe: real, latency: real)

  const Fresh := Row(false, 0.0, 0.0, false, 0.0, 0.0, 0.0)

  /** The last success, else when the route was selected, else now. */
  function Baseline(row: Row, now: real, selected: real): real {
    if row.lastSuccess != 0.0 then row.lastSuccess
    else if Max(0.0, selected) > 0.0 then selected
    else now
  }

  /** `evolve_failure`. */
  function EvolveFailure(row: Row, user: bool, now: real, selected: real): Row {
    var baseline := if Baseline(row, now, selected) <= 0.0 then now else Baseline(row, now, selected);
    if !user then row.(lastFailure := now, userBlamed := false, segment := 0.0)
    else
      var segment := if row.userBlamed && row.segment > 0.0 then row.segment
                     else if row.lastFailure <= baseline then baseline
                     else now;
      var flips := now - baseline >= UNHEALTHY_AFTER && now - segment >= CONFIRM;
      row.(lastFailure := now, userBlamed := true, segment := segment,
           needsUser := row.needsUser || flips,
           lastProbe := if flips && !row.needsUser then now else row.lastProbe)
  }

  function Ewma(prior: real, sample: real): real {
    if prior <= 0.0 then sample else 0.3 * sample + 0.7 * prior
  }

  /** `evolve_success`. */
  function EvolveSuccess(row: Row, now: real, latency: Option<real>): Row {
    row.(needsUser := false, lastSuccess := now, segment := 0.0, lastProbe := 0.0,
         latency := if latency.Some? && latency.value >= 0.0 then Ewma(row.latency, latency.value) else row.latency)
  }

  /** A measured latency, never negative. */
  function Sample(latency: Option<real>): Option<real> {
    if latency.None? then None else Some(Max(0.0, latency.value))
  }

  datatype Admission = Admission(allowed: bool, probe: bool)

  /** `proactive_admission`. */
  function Admit(row: Row, now: real): Admission {
    if !row.needsUser then Admission(true, false)
    else if row.lastProbe <= 0.0 || now - row.lastProbe >= PROBE_INTERVAL then Admission(true, true)
    else Admission(false, false)
  }

  function Admitted(row: Row, now: real): Row {
    if Admit(row, now).probe then row.(lastProbe := now) else row
  }

  // ---- histories

  datatype Event =
    | Success(t: real, latency: Option<real>)
    | Failure(t: real, user: bool, selected: real)
    | Wake(t: real)

  function Evolve(row: Row, e: Event): Row {
    match e
    case Success(t, latency) => EvolveSuccess(row, t, latency)
    case Failure(t, user, selected) => EvolveFailure(row, user, t, selected)
    case Wake(t) => Admitted(row, t)
  }

  function After(events: seq<Event>): Row {
    if events == [] then Fresh else Evolve(After(events[..|events| - 1]), events[|events| - 1])
  }

  /** Times are positive and never go back. */
  predicate Timed(events: seq<Event>) {
    && (forall i :: 0 <= i < |events| ==> events[i].t > 0.0)
    && (forall i, j :: 0 <= i < j < |events| ==> events[i].t <= events[j].t)
  }

  /** Event `i` turned the provider from usable to needing the user. */
  predicate Flips(events: seq<Event>, i: nat)
    requires i < |events|
  {
    !After(events[..i]).needsUser && After(events[..i + 1]).needsUser
  }

  predicate Probes(events: seq<Event>, i: nat)
    requires i < |events|
  {
    events[i].Wake? && Admit(After(events[..i]), events[i].t).probe
  }

  // ---- the latency average

  function Fading(n: nat): real {
    if n == 0 then 1.0 else 0.7 * Fading(n - 1)
  }

  /** Under a steady latency the average closes in on it by 30 % of the distance with every success. */
  lemma {:induction false} LatencyConverges(row: Row, successes: seq<Event>, latency: real)
    requires row.latency > 0.0 && latency >= 0.0
    requires forall i :: 0 <= i < |successes| ==> successes[i].Success? && successes[i].latency == Some(latency)
    ensures Evolved(row, successes).latency == latency + Fading(|successes|) * (row.latency - latency) > 0.0
    decreases |successes|
  {
    if successes != [] {
      var n := |successes| - 1;
      LatencyConverges(row, successes[..n], latency);
      var gap := row.latency - latency;
      assert 0.7 * (Fading(n) * gap) == Fading(n + 1) * gap;
    }
  }

  function Evolved(row: Row, events: seq<Event>): Row {
    if events == [] then row else Evolve(Evolved(row, events[..|events| - 1]), events[|events| - 1])
  }

  // ---- what every history keeps

  predicate SuccessesBy(events: seq<Event>, t: real) {
    forall i :: 0 <= i < |events| && events[i].Success? ==> events[i].t <= t
  }

  predicate FailuresBy(events: seq<Event>, t: real) {
    forall i :: 0 <= i < |events| && events[i].Failure? ==> events[i].t <= t
  }

  predicate OthersBy(events: seq<Event>, t: real) {
    forall i :: 0 <= i < |events| && events[i].Failure? && !events[i].user ==> events[i].t <= t
  }

  predicate Inv(events: seq<Event>, row: Row) {
    && SuccessesBy(events, row.lastSuccess) && FailuresBy(events, row.lastFailure)
    && (row.userBlamed && row.segment > 0.0 ==> OthersBy(events, row.segment))
    && (row.needsUser ==> row.lastProbe > 0.0)
    && row.lastSuccess >= 0.0
  }

  predicate AllBy(events: seq<Event>, t: real) {
    forall i :: 0 <= i < |events| ==> events[i].t <= t
  }

  lemma FailureKeeps(before: seq<Event>, row: Row, e: Event)
    requires Inv(before, row) && AllBy(before, e.t) && e.t > 0.0 && e.Failure?
    ensures Inv(before + [e], Evolve(row, e))
  {
    var next := Evolve(row, e);
    assert SuccessesBy(before + [e], next.lastSuccess);
    assert FailuresBy(before + [e], next.lastFailure);
    if e.user {
      assert OthersBy(before, next.segment);
      assert OthersBy(before + [e], next.segment);
    }
  }

  lemma StepKeeps(before: seq<Event>, row: Row, e: Event)
    requires Inv(before, row) && AllBy(before, e.t) && e.t > 0.0
    ensures Inv(before + [e], Evolve(row, e))
  {
    if e.Failure? { FailureKeeps(before, row, e); }
  }

  lemma {:induction false} HistoryKeeps(events: seq<Event>)
    requires Timed(events)
    ensures Inv(events, After(events))
  {
    if events != [] {
      var n := |events| - 1;
      var before := events[..n];
      assert Timed(before);
      HistoryKeeps(before);
      assert events == before + [events[n]];
      StepKeeps(before, After(before), events[n]);
    }
  }

  /** A flip at `t`: the event is a user failure, no success lies within the last 48 hours and no
      failure of another kind within the last hour; without any success yet, the route was selected
      48 hours ago or more. */
  lemma FlipIsJustified(events: seq<Event>, n: nat)
    requires Timed(events) && n < |events| && Flips(events, n)
    ensures events[n].Failure? && events[n].user
    ensures forall i :: 0 <= i < n && events[i].Success? ==> events[n].t - events[i].t >= UNHEALTHY_AFTER
    ensures forall i :: 0 <= i < n && events[i].Failure? && !events[i].user ==> events[n].t - events[i].t >= CONFIRM
    ensures (forall i :: 0 <= i < n ==> !events[i].Success?) ==>
              events[n].selected > 0.0 && events[n].t - events[n].selected >= UNHEALTHY_AFTER
  {
    var before := events[..n];
    var e := events[n];
    assert Timed(before);
    HistoryKeeps(before);
    assert events[..n + 1][..n] == before && events[..n + 1][n] == e;
    forall i | 0 <= i < n
      ensures before[i] == events[i] && before[i].t <= e.t
    {
    }
    FlipStep(After(before), e);
    LastTimes(before);
    if forall i :: 0 <= i < n ==> !events[i].Success? { NeverSucceeded(before); }
  }

  /** What the row says when a failure flips it. */
  lemma FlipStep(row: Row, e: Event)
    requires !row.needsUser && Evolve(row, e).needsUser && e.t > 0.0
    ensures e.Failure? && e.user
    ensures row.lastSuccess > 0.0 ==> e.t - row.lastSuccess >= UNHEALTHY_AFTER
    ensures row.lastSuccess == 0.0 ==> e.selected > 0.0 && e.t - e.selected >= UNHEALTHY_AFTER
    ensures e.t - row.lastFailure >= CONFIRM || (row.userBlamed && row.segment > 0.0 && e.t - row.segment >= CONFIRM)
  {
  }

  // ---- exactly when a failure flips

  function LastSuccess(events: seq<Event>): real {
    if events == [] then 0.0
    else if events[|events| - 1].Success? then events[|events| - 1].t
    else LastSuccess(events[..|events| - 1])
  }

  function LastFailure(events: seq<Event>): real {
    if events == [] then 0.0
    else if events[|events| - 1].Failure? then events[|events| - 1].t
    else LastFailure(events[..|events| - 1])
  }

  lemma {:induction false} LastTimes(events: seq<Event>)
    ensures After(events).lastSuccess == LastSuccess(events) && After(events).lastFailure == LastFailure(events)
  {
    if events != [] { LastTimes(events[..|events| - 1]); }
  }

  lemma {:induction false} NeverSucceeded(events: seq<Event>)
    requires forall i :: 0 <= i < |events| ==> !events[i].Success?
    ensures LastSuccess(events) == 0.0
  {
    if events != [] { NeverSucceeded(events[..|events| - 1]); }
  }

  /** The last success before `e`, else the selection it reports, else its own time. */
  function Since(before: seq<Event>, e: Event): real
    requires e.Failure?
  {
    if LastSuccess(before) != 0.0 then LastSuccess(before) else if e.selected > 0.0 then e.selected else e.t
  }

  /** When the run of user failures that `events[f]` begins counts as begun: with the baseline if no
      failure lies after it, else with the failure itself. */
  function Opening(events: seq<Event>, f: nat): real
    requires f < |events| && events[f].Failure?
  {
    var since := Since(events[..f], events[f]);
    if LastFailure(events[..f]) <= since then since else events[f].t
  }

  predicate Other(e: Event) {
    e.Success? || (e.Failure? && !e.user)
  }

  /** `events[f..n]` are user failures and wakes, `events[f]` the first failure since anything else. */
  predicate UserRun(events: seq<Event>, f: nat, n: nat) {
    && f <= n < |events| && events[f].Failure? && events[f].user
    && (forall i :: f <= i <= n ==> !Other(events[i]))
    && forall j :: 0 <= j < f && events[j].Failure? && events[j].user ==> exists k :: j < k < f && Other(events[k])
  }

  lemma {:induction false} ClosedBefore(events: seq<Event>)
    requires forall j :: 0 <= j < |events| && events[j].Failure? && events[j].user ==>
               exists k :: j < k < |events| && Other(events[k])
    ensures var row := After(events); !(row.userBlamed && row.segment > 0.0)
  {
    if events != [] {
      var n := |events| - 1;
      if events[n].Wake? {
        forall j | 0 <= j < n && events[j].Failure? && events[j].user
          ensures exists k :: j < k < n && Other(events[..n][k])
        {
          var k :| j < k < |events| && Other(events[k]);
          assert events[..n][k] == events[k];
        }
        ClosedBefore(events[..n]);
      } else {
        assert Other(events[n]);
      }
    }
  }

  lemma {:induction false} RunSegment(events: seq<Event>, f: nat, n: nat)
    requires Timed(events) && UserRun(events, f, n)
    ensures var row := After(events[..n + 1]); row.userBlamed && row.segment == Opening(events, f) > 0.0
    decreases n
  {
    assert events[..n + 1][..n] == events[..n] && events[..n + 1][n] == events[n];
    if n > f {
      RunSegment(events, f, n - 1);
    } else {
      LastTimes(events[..f]);
      SinceIsPositive(events, f);
      forall j | 0 <= j < f && events[..f][j].Failure? && events[..f][j].user
        ensures exists k :: j < k < f && Other(events[..f][k])
      {
        var k :| j < k < f && Other(events[k]);
        assert Other(events[..f][k]);
      }
      ClosedBefore(events[..f]);
    }
  }

  lemma SinceIsPositive(events: seq<Event>, f: nat)
    requires Timed(events) && f < |events| && events[f].Failure?
    ensures Since(events[..f], events[f]) > 0.0 && LastSuccess(events[..f]) >= 0.0
  {
    LastTimes(events[..f]);
    assert Timed(events[..f]);
    HistoryKeeps(events[..f]);
  }

  /** For every history: a user failure of a healthy provider flips it exactly when 48 hours have
      passed since the last success (or the selection) and an hour since its run of user failures
      counts as begun. */
  lemma FlipsIff(events: seq<Event>, f: nat, n: nat)
    requires Timed(events) && UserRun(events, f, n) && events[n].Failure? && !After(events[..n]).needsUser
    ensures Flips(events, n) <==>
            && events[n].t - Since(events[..n], events[n]) >= UNHEALTHY_AFTER
            && events[n].t - Opening(events, f) >= CONFIRM
  {
    assert events[..n + 1][..n] == events[..n] && events[..n + 1][n] == events[n];
    RunSegment(events, f, n);
    LastTimes(events[..n]);
    SinceIsPositive(events, n);
  }

  /** Every user failure belongs to such a run. */
  lemma {:induction false} RunExists(events: seq<Event>, n: nat)
    requires n < |events| && events[n].Failure? && events[n].user
    ensures exists f :: UserRun(events, f, n)
  {
    var f, i := n, n;
    while i > 0 && !Other(events[i - 1])
      invariant 0 <= i <= f <= n && events[f].Failure? && events[f].user
      invariant forall k :: i <= k <= n ==> !Other(events[k])
      invariant forall k :: i <= k < f ==> events[k].Wake?
    {
      i := i - 1;
      if events[i].Failure? { f := i; }
    }
    assert UserRun(events, f, n);
  }

  /** Nothing but user failures and wakes after `from`. */
  predicate OnlyUser(events: seq<Event>, from: nat) {
    forall i :: from < i < |events| ==> events[i].Wake? || (events[i].Failure? && events[i].user)
  }

  /** The confirmation segment has not begun, or began with the success at `s`. */
  predicate SegmentFrom(row: Row, s: real) {
    row.lastSuccess == s && ((row.segment == 0.0 && row.lastFailure <= s) || (row.userBlamed && row.segment == s))
  }

  lemma SegmentStep(row: Row, s: real, e: Event)
    requires s > 0.0 && SegmentFrom(row, s) && (e.Wake? || (e.Failure? && e.user))
    ensures SegmentFrom(Evolve(row, e), s)
    ensures e.Failure? && e.t - s >= UNHEALTHY_AFTER ==> Evolve(row, e).needsUser
  {
  }

  lemma {:induction false} SegmentStart(events: seq<Event>, from: nat)
    requires Timed(events) && from < |events| && events[from].Success? && OnlyUser(events, from)
    ensures SegmentFrom(After(events), events[from].t)
  {
    var n := |events| - 1;
    var before := events[..n];
    assert Timed(before) && before + [events[n]] == events;
    if n == from {
      LastFailureIsPast(before, events[n].t);
    } else {
      SegmentStart(before, from);
      SegmentStep(After(before), events[from].t, events[n]);
    }
  }

  lemma {:induction false} LastFailureIsPast(events: seq<Event>, t: real)
    requires AllBy(events, t) && t > 0.0
    ensures After(events).lastFailure <= t
  {
    if events != [] { LastFailureIsPast(events[..|events| - 1], t); }
  }

  /** The other direction: 48 hours after the last success, with nothing but user failures since,
      the next user failure leaves the provider needing the user. */
  lemma OverdueIsUnhealthy(events: seq<Event>, from: nat)
    requires Timed(events) && from < |events| - 1 && events[from].Success? && OnlyUser(events, from)
    requires events[|events| - 1].Failure? && events[|events| - 1].t - events[from].t >= UNHEALTHY_AFTER
    ensures After(events).needsUser
  {
    var n := |events| - 1;
    var before := events[..n];
    assert Timed(before) && before + [events[n]] == events;
    SegmentStart(before, from);
    SegmentStep(After(before), events[from].t, events[n]);
  }

  /** In the unhealthy state a probe time is always set. */
  lemma UnhealthyHasProbeTime(events: seq<Event>)
    requires Timed(events) && After(events).needsUser
    ensures After(events).lastProbe > 0.0
  {
    HistoryKeeps(events);
  }

  predicate GrantsBy(events: seq<Event>, t: real) {
    forall i :: 0 <= i < |events| && Probes(events, i) ==> events[i].t <= t
  }

  lemma {:induction false} GrantsKeep(events: seq<Event>)
    requires Timed(events)
    ensures After(events).needsUser ==> GrantsBy(events, After(events).lastProbe)
  {
    if events != [] {
      var n := |events| - 1;
      var before := events[..n];
      assert Timed(before);
      GrantsKeep(before);
      forall i | 0 <= i < n
        ensures Probes(events, i) == Probes(before, i) && events[i].t <= events[n].t && before[i] == events[i]
      {
        assert before[..i] == events[..i];
      }
    }
  }

  /** Any two granted probes, in any history, are at least a day apart. */
  lemma ProbesAreADayApart(events: seq<Event>, i: nat, j: nat)
    requires Timed(events) && i < j < |events| && Probes(events, i) && Probes(events, j)
    ensures events[j].t - events[i].t >= PROBE_INTERVAL
  {
    var before := events[..j];
    assert Timed(before);
    GrantsKeep(before);
    HistoryKeeps(before);
    assert before[..i] == events[..i] && before[i] == events[i];
    assert Probes(before, i);
  }

  /** The day until the next probe counts from here: the flip, or a granted probe. */
  predicate Marks(events: seq<Event>, i: nat)
    requires i < |events|
  {
    Flips(events, i) || Probes(events, i)
  }

  predicate LastMark(events: seq<Event>, m: nat) {
    m < |events| && Marks(events, m) && forall i :: m < i < |events| ==> !Marks(events, i)
  }

  lemma MarksPrefix(events: seq<Event>, n: nat)
    requires n <= |events|
    ensures forall i :: 0 <= i < n ==> Marks(events, i) == Marks(events[..n], i)
  {
    forall i | 0 <= i < n
      ensures Marks(events, i) == Marks(events[..n], i)
    {
      assert events[..n][..i] == events[..i] && events[..n][..i + 1] == events[..i + 1];
    }
  }

  /** While the provider is unhealthy, the stored probe time is that of the last mark. */
  lemma {:induction false} ProbeTimeIsMark(events: seq<Event>) returns (m: nat)
    requires After(events).needsUser
    ensures LastMark(events, m) && After(events).lastProbe == events[m].t
  {
    var n := |events| - 1;
    var before := events[..n];
    assert events[..n + 1] == events;
    if Marks(events, n) {
      m := n;
    } else {
      m := ProbeTimeIsMark(before);
      MarksPrefix(events, n);
    }
  }

  /** For every history and every wake: a healthy provider is admitted; an unhealthy one gets the daily
      probe exactly when a day has passed since the flip or the last granted probe, and nothing before. */
  lemma AdmissionIff(events: seq<Event>, t: real, m: nat)
    requires Timed(events) && LastMark(events, m)
    ensures var a := Admit(After(events), t);
            if !After(events).needsUser then a == Admission(true, false)
            else a == (if t - events[m].t >= PROBE_INTERVAL then Admission(true, true) else Admission(false, false))
  {
    if After(events).needsUser {
      var m' := ProbeTimeIsMark(events);
      assert !(m < m') && !(m' < m);
    }
  }

  /** An unhealthy provider is one with a flip and no success after it. */
  lemma {:induction false} UnhealthyIff(events: seq<Event>)
    ensures After(events).needsUser <==> exists f :: FlipStands(events, f)
  {
    if events != [] {
      var n := |events| - 1;
      var before := events[..n];
      UnhealthyIff(before);
      assert events[..n + 1] == events;
      forall f | 0 <= f < n
        ensures Flips(events, f) == Flips(before, f)
      {
        assert before[..f] == events[..f] && before[..f + 1] == events[..f + 1];
      }
      if After(events).needsUser {
        if Flips(events, n) {
          assert FlipStands(events, n);
        } else {
          var f :| FlipStands(before, f);
          assert FlipStands(events, f);
        }
      } else {
        forall f: nat
          ensures !FlipStands(events, f)
        {
          if FlipStands(events, f) && f < n { assert FlipStands(before, f); }
        }
      }
    }
  }

  predicate FlipStands(events: seq<Event>, f: nat) {
    f < |events| && Flips(events, f) && forall i :: f < i < |events| ==> !events[i].Success?
  }

  /** No success within 48 hours and no other failure within an hour of `t`. */
  predicate Justified(events: seq<Event>, t: real) {
    && (forall i :: 0 <= i < |events| && events[i].Success? ==> t - events[i].t >= UNHEALTHY_AFTER)
    && (forall i :: 0 <= i < |events| && events[i].Failure? && !events[i].user ==> t - events[i].t >= CONFIRM)
  }

  /** A granted probe is at least a day after every earlier one. */
  predicate DayApart(events: seq<Event>, t: real) {
    forall i :: 0 <= i < |events| && Probes(events, i) ==> t - events[i].t >= PROBE_INTERVAL
  }

  lemma AfterAppend(events: seq<Event>, e: Event)
    requires Timed(events) && AllBy(events, e.t) && e.t > 0.0
    ensures After(events + [e]) == Evolve(After(events), e) && Timed(events + [e])
  {
    assert (events + [e])[..|events|] == events;
  }

  lemma FlipOnAppend(events: seq<Event>, e: Event)
    requires Timed(events) && AllBy(events, e.t) && e.t > 0.0
    requires !After(events).needsUser && Evolve(After(events), e).needsUser
    ensures Justified(events, e.t)
  {
    var all := events + [e];
    AfterAppend(events, e);
    assert all[..|events|] == events && all[..|events| + 1] == all;
    FlipIsJustified(all, |events|);
    forall i | 0 <= i < |events|
      ensures all[i] == events[i]
    {
    }
  }

  lemma GrantOnAppend(events: seq<Event>, t: real)
    requires Timed(events) && AllBy(events, t) && t > 0.0 && Admit(After(events), t).probe
    ensures DayApart(events, t)
  {
    GrantsKeep(events);
    HistoryKeeps(events);
  }

  function RowOf(rows: map<string, Row>, user: string): Row {
    if user in rows then rows[user] else Fresh
  }

  function PastOf(history: map<string, seq<Event>>, user: string): seq<Event> {
    if user in history then history[user] else []
  }

  /** Every row is what its history makes of it. */
  ghost predicate Consistent(rows: map<string, Row>, history: map<string, seq<Event>>) {
    forall u :: Fits(RowOf(rows, u), PastOf(history, u))
  }

  predicate Fits(row: Row, past: seq<Event>) {
    row == After(past) && Timed(past)
  }

  lemma FitsAppend(row: Row, past: seq<Event>, e: Event)
    requires Fits(row, past) && AllBy(past, e.t) && e.t > 0.0
    ensures Fits(Evolve(row, e), past + [e])
  {
    AfterAppend(past, e);
  }

  lemma ConsistentAppend(rows: map<string, Row>, rows': map<string, Row>, history: map<string, seq<Event>>,
                         user: string, e: Event)
    requires Consistent(rows, history) && AllBy(PastOf(history, user), e.t) && e.t > 0.0
    requires RowOf(rows', user) == Evolve(RowOf(rows, user), e)
    requires forall u :: u != user ==> RowOf(rows', u) == RowOf(rows, u)
    ensures Consistent(rows', history[user := PastOf(history, user) + [e]])
  {
    FitsAppend(RowOf(rows, user), PastOf(history, user), e);
    UpdateKeeps(Fits, rows, rows', history, user, PastOf(history, user) + [e]);
  }

  lemma UpdateKeeps(fits: (Row, seq<Event>) -> bool, rows: map<string, Row>, rows': map<string, Row>,
                    history: map<string, seq<Event>>, user: string, past: seq<Event>)
    requires forall u :: fits(RowOf(rows, u), PastOf(history, u))
    requires fits(RowOf(rows', user), past) && forall u :: u != user ==> RowOf(rows', u) == RowOf(rows, u)
    ensures forall u :: fits(RowOf(rows', u), PastOf(history[user := past], u))
  {
  }

  lemma ConsistentPut(rows: map<string, Row>, history: map<string, seq<Event>>, user: string, e: Event)
    requires Consistent(rows, history) && AllBy(PastOf(history, user), e.t) && e.t > 0.0
    ensures Consistent(rows[user := Evolve(RowOf(rows, user), e)], history[user := PastOf(history, user) + [e]])
  {
    ConsistentAppend(rows, rows[user := Evolve(RowOf(rows, user), e)], history, user, e);
  }

  /** The health table, with the recorded history of every user.  A failed database call records
      nothing. */
  class HealthTable {
    var rows: map<string, Row>
    ghost var history: map<string, seq<Event>>

    constructor ()
      ensures Valid() && rows == map[] && history == map[]
    {
      rows, history := map[], map[];
    }

    ghost predicate Valid()
      reads this
    {
      Consistent(rows, history)
    }

    /** Calls come in the order of their times. */
    ghost predicate InOrder(user: string, now: real)
      reads this
    {
      now > 0.0 && AllBy(PastOf(history, user), now)
    }

    method RecordSuccess(user: string, now: real, latency: Option<real>, up: bool) returns (ok: bool)
      requires Valid() && InOrder(user, now)
      modifies this
      ensures Valid() && ok == up
      ensures up ==> history == old(history)[user := PastOf(old(history), user) + [Success(now, Sample(latency))]]
      ensures up ==> !RowOf(rows, user).needsUser
      ensures !up ==> history == old(history) && rows == old(rows)
    {
      if !up { return false; }
      ghost var e := Success(now, Sample(latency));
      var rows' := rows[user := EvolveSuccess(RowOf(rows, user), now, Sample(latency))];
      ConsistentPut(rows, history, user, e);
      rows, history := rows', history[user := PastOf(history, user) + [e]];
      ok := true;
    }

    method RecordFailure(user: string, byUser: bool, now: real, selected: real, up: bool) returns (ok: bool)
      requires Valid() && InOrder(user, now)
      modifies this
      ensures Valid() && ok == up
      ensures up ==> history == old(history)[user := PastOf(old(history), user) + [Failure(now, byUser, selected)]]
      ensures !RowOf(old(rows), user).needsUser && RowOf(rows, user).needsUser ==>
                byUser && Justified(PastOf(old(history), user), now)
      ensures !up ==> history == old(history) && rows == old(rows)
    {
      if !up { return false; }
      ghost var e := Failure(now, byUser, selected);
      var next := EvolveFailure(RowOf(rows, user), byUser, now, selected);
      Judged(rows, history, user, e);
      var rows' := rows[user := next];
      ConsistentPut(rows, history, user, e);
      rows, history := rows', history[user := PastOf(history, user) + [e]];
      ok := true;
    }

    /** A wake.  Fails open: without the database it is allowed and is no probe. */
    method ProactiveAdmission(user: string, now: real, up: bool) returns (a: Admission)
      requires Valid() && InOrder(user, now)
      modifies this
      ensures Valid()
      ensures up ==> history == old(history)[user := PastOf(old(history), user) + [Wake(now)]]
      ensures up ==> a == Admit(RowOf(old(rows), user), now)
      ensures a.probe ==> DayApart(PastOf(old(history), user), now)
      ensures !up ==> a == Admission(true, false) && history == old(history) && rows == old(rows)
    {
      if !up { return Admission(true, false); }
      a := Admit(RowOf(rows, user), now);
      if a.probe { Granted(rows, history, user, now); }
      if a.probe {
        ConsistentPut(rows, history, user, Wake(now));
        rows := rows[user := RowOf(rows, user).(lastProbe := now)];
      } else {
        ConsistentAppend(rows, rows, history, user, Wake(now));
      }
      history := history[user := PastOf(history, user) + [Wake(now)]];
    }
  }

  lemma Judged(rows: map<string, Row>, history: map<string, seq<Event>>, user: string, e: Event)
    requires Consistent(rows, history) && AllBy(PastOf(history, user), e.t) && e.t > 0.0 && e.Failure?
    ensures !RowOf(rows, user).needsUser && Evolve(RowOf(rows, user), e).needsUser ==>
              e.user && Justified(PastOf(history, user), e.t)
  {
    assert Fits(RowOf(rows, user), PastOf(history, user));
    if !RowOf(rows, user).needsUser && Evolve(RowOf(rows, user), e).needsUser {
      FlipOnAppend(PastOf(history, user), e);
    }
  }

  lemma Granted(rows: map<string, Row>, history: map<string, seq<Event>>, user: string, now: real)
    requires Consistent(rows, history) && AllBy(PastOf(history, user), now) && now > 0.0
    requires Admit(RowOf(rows, user), now).probe
    ensures DayApart(PastOf(history, user), now)
  {
    assert Fits(RowOf(rows, user), PastOf(history, user));
    GrantOnAppend(PastOf(history, user), now);
  }
}
