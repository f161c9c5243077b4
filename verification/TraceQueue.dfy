/** The debug-trace queue: any number of enqueuing threads, one worker, and the books they keep. */
module TraceQueue {
  import opened Prelude

  const QUEUE_MAX := 5000
  const BATCH_MAX := 100

  datatype Item = Item(uid: string, event: nat)

  // ---- counting

  function Count(s: seq<Item>, p: Item -> bool): nat {
    if s == [] then 0 else One(p(s[0])) + Count(s[1..], p)
  }

  function Keep(s: seq<Item>, q: Item -> bool): (r: seq<Item>)
    ensures |r| <= |s| && forall i :: 0 <= i < |r| ==> r[i] in s && q(r[i])
  {
    if s == [] then [] else (if q(s[0]) then [s[0]] else []) + Keep(s[1..], q)
  }

  function Not(q: Item -> bool): Item -> bool {
    (x: Item) => !q(x)
  }

  function Less(s: seq<Item>, i: nat): seq<Item>
    requires i < |s|
  {
    s[..i] + s[i + 1..]
  }

  lemma {:induction false} CountAppend(a: seq<Item>, b: seq<Item>, p: Item -> bool)
    ensures Count(a + b, p) == Count(a, p) + Count(b, p)
  {
    if a == [] {
      assert a + b == b;
    } else {
      assert (a + b)[1..] == a[1..] + b;
      CountAppend(a[1..], b, p);
    }
  }

  lemma CountOne(s: seq<Item>, x: Item, p: Item -> bool)
    ensures Count(s + [x], p) == Count(s, p) + One(p(x))
  {
    CountAppend(s, [x], p);
    assert [x][1..] == [];
  }

  lemma CountLess(s: seq<Item>, i: nat, p: Item -> bool)
    requires i < |s|
    ensures Count(s, p) == Count(Less(s, i), p) + One(p(s[i]))
  {
    assert s == s[..i] + s[i..] && s[i..] == [s[i]] + s[i + 1..];
    CountAppend(s[..i], s[i..], p);
    CountAppend(s[..i], s[i + 1..], p);
  }

  lemma {:induction false} CountSplit(s: seq<Item>, q: Item -> bool, p: Item -> bool)
    ensures Count(s, p) == Count(Keep(s, q), p) + Count(Keep(s, Not(q)), p)
  {
    if s != [] {
      CountSplit(s[1..], q, p);
      var yes, no := Keep(s[1..], q), Keep(s[1..], Not(q));
      if q(s[0]) {
        assert ([s[0]] + yes)[1..] == yes;
        assert Keep(s, Not(q)) == no;
      } else {
        assert ([s[0]] + no)[1..] == no;
        assert Keep(s, q) == yes;
        assert Keep(s, Not(q)) == [s[0]] + no;
      }
    }
  }

  // ---- the pending counter

  type Counter = m: map<string, nat> | forall u :: u in m ==> m[u] > 0 witness map[]

  function Value(m: map<string, nat>, u: string): nat {
    if u in m then m[u] else 0
  }

  function Up(m: Counter, u: string, n: nat): Counter
    requires n > 0
  {
    m[u := Value(m, u) + n]
  }

  /** One fewer, and no entry at zero. */
  function Down(m: Counter, u: string): Counter {
    if Value(m, u) > 1 then m[u := Value(m, u) - 1] else m - {u}
  }

  function Released(m: Counter, batch: seq<Item>): Counter {
    if batch == [] then m else Released(Down(m, batch[0].uid), batch[1..])
  }

  function Of(u: string): Item -> bool {
    (x: Item) => x.uid == u
  }

  lemma {:induction false} ReleasedValue(m: Counter, batch: seq<Item>, u: string)
    requires Count(batch, Of(u)) <= Value(m, u)
    ensures Value(Released(m, batch), u) == Value(m, u) - Count(batch, Of(u))
  {
    if batch != [] { ReleasedValue(Down(m, batch[0].uid), batch[1..], u); }
  }

  /** The worker's release loop. */
  method Release(m: Counter, batch: seq<Item>) returns (r: Counter)
    ensures r == Released(m, batch)
  {
    r := m;
    var i := 0;
    assert batch[0..] == batch;
    while i < |batch|
      invariant 0 <= i <= |batch|
      invariant Released(r, batch[i..]) == Released(m, batch)
    {
      assert batch[i..][1..] == batch[i + 1..];
      r := Down(r, batch[i].uid);
      i := i + 1;
    }
  }

  // ---- the state

  /** What the worker holds while it appends one user's events: the backlog counts it has taken. */
  datatype Hand = Empty | Took(uid: string, dropped: nat) | TookBoth(uid: string, dropped: nat, risk: nat)

  /** The two backlogs, and as history what acknowledged markers have told of each and how much was
      ever put at risk. */
  datatype Books = Books(backlog: Counter, atRisk: Counter, told: map<string, nat>, risked: map<string, nat>,
                         warned: map<string, nat>)

  /** The events the worker has dealt with: their insert returned, their insert raised and its outcome is
      unknown, or tracing was off for their user. */
  datatype Fates = Fates(stored: seq<Item>, unknown: seq<Item>, skipped: seq<Item>)

  datatype Fate = Stored | Unknown | Skipped

  function Met(f: Fates, fate: Fate, xs: seq<Item>): Fates {
    match fate
    case Stored => f.(stored := f.stored + xs)
    case Unknown => f.(unknown := f.unknown + xs)
    case Skipped => f.(skipped := f.skipped + xs)
  }

  function CountFates(f: Fates, p: Item -> bool): nat {
    Count(f.stored, p) + Count(f.unknown, p) + Count(f.skipped, p)
  }

  /** Threads are told apart by their event alone.  `counted` threads have raised the counter and not
      put yet, `refused` ones met a full queue, `undone` ones have lowered the counter again.
      `batch` is what the worker took and `todo` the part it has not appended yet.  `begun`, `fates`
      and `lost` are history: events offered, what became of those handed over, and events dropped. */
  datatype State = State(
    pending: Counter, counted: seq<Item>, refused: seq<Item>, undone: seq<Item>,
    queue: seq<Item>, batch: seq<Item>, todo: seq<Item>, flushing: bool, hand: Hand, books: Books,
    begun: seq<Item>, fates: Fates, lost: seq<Item>)

  const Init := State(map[], [], [], [], [], [], [], false, Empty, Books(map[], map[], map[], map[], map[]),
                      [], Fates([], [], []), [])

  datatype Step =
    | Raise(x: Item)
    | Put(i: nat)
    | Full(i: nat)
    | Lower(i: nat)
    | RecordDrop(i: nat)
    | Get
    | Flush
    | Skip(u: string)
    | TakeDropped(u: string)
    | TakeAtRisk
    | Insert(ok: bool)
    | Finish

  predicate Enabled(s: State, step: Step) {
    match step
    case Raise(x) => x.uid != ""
    case Put(i) => i < |s.counted| && |s.queue| < QUEUE_MAX
    case Full(i) => i < |s.counted| && |s.queue| >= QUEUE_MAX
    case Lower(i) => i < |s.refused|
    case RecordDrop(i) => i < |s.undone|
    case Get => !s.flushing && s.queue != [] && |s.batch| < BATCH_MAX
    case Flush => !s.flushing && s.batch != []
    case Skip(u) => s.flushing && s.hand == Empty && Count(s.todo, Of(u)) > 0
    case TakeDropped(u) => s.flushing && s.hand == Empty && Count(s.todo, Of(u)) > 0
    case TakeAtRisk => s.flushing && s.hand.Took?
    case Insert(_) => s.flushing && s.hand.TookBoth?
    case Finish => s.flushing && s.hand == Empty && s.todo == []
  }

  function Settled(s: State, u: string, fate: Fate): State {
    s.(fates := Met(s.fates, fate, Keep(s.todo, Of(u))), todo := Keep(s.todo, Not(Of(u))), hand := Empty)
  }

  function AddTo(m: map<string, nat>, u: string, n: nat): map<string, nat> {
    m[u := Value(m, u) + n]
  }

  function Max1(n: nat): nat {
    if n < 1 then 1 else n
  }

  /** An insert of `n` events that raised: the drop backlog is put back and everything handed over
      is at risk. */
  function Failed(b: Books, u: string, dropped: nat, risk: nat, n: nat): Books {
    var mine := n + One(dropped > 0);
    b.(backlog := if dropped > 0 then Up(b.backlog, u, Max1(dropped)) else b.backlog,
       atRisk := Up(b.atRisk, u, Max1(risk + mine)),
       risked := AddTo(b.risked, u, mine))
  }

  /** An insert that returned: its markers have told both counts. */
  function Inserted(b: Books, u: string, dropped: nat, risk: nat): Books {
    b.(told := AddTo(b.told, u, dropped), warned := AddTo(b.warned, u, risk))
  }

  function Outcome(b: Books, h: Hand, n: nat, ok: bool): Books
    requires h.TookBoth?
  {
    if ok then Inserted(b, h.uid, h.dropped, h.risk) else Failed(b, h.uid, h.dropped, h.risk, n)
  }

  function Do(s: State, step: Step): State
    requires Enabled(s, step)
  {
    match step
    case Raise(x) => s.(begun := s.begun + [x], counted := s.counted + [x], pending := Up(s.pending, x.uid, 1))
    case Put(i) => s.(counted := Less(s.counted, i), queue := s.queue + [s.counted[i]])
    case Full(i) => s.(counted := Less(s.counted, i), refused := s.refused + [s.counted[i]])
    case Lower(i) =>
      s.(refused := Less(s.refused, i), undone := s.undone + [s.refused[i]],
        pending := Down(s.pending, s.refused[i].uid))
    case RecordDrop(i) =>
      s.(undone := Less(s.undone, i), lost := s.lost + [s.undone[i]],
         books := s.books.(backlog := Up(s.books.backlog, s.undone[i].uid, 1)))
    case Get => s.(queue := s.queue[1..], batch := s.batch + [s.queue[0]], todo := s.todo + [s.queue[0]])
    case Flush => s.(flushing := true)
    case Skip(u) => Settled(s, u, Skipped)
    case TakeDropped(u) =>
      s.(hand := Took(u, Value(s.books.backlog, u)), books := s.books.(backlog := s.books.backlog - {u}))
    case TakeAtRisk =>
      s.(hand := TookBoth(s.hand.uid, s.hand.dropped, Value(s.books.atRisk, s.hand.uid)),
         books := s.books.(atRisk := s.books.atRisk - {s.hand.uid}))
    case Insert(ok) =>
      Settled(s, s.hand.uid, if ok then Stored else Unknown).(
        books := Outcome(s.books, s.hand, Count(s.todo, Of(s.hand.uid)), ok))
    case Finish => s.(pending := Released(s.pending, s.batch), batch := [], flushing := false)
  }

  ghost predicate Runs(s: State, steps: seq<Step>)
    decreases |steps|
  {
    steps == [] || (Enabled(s, steps[0]) && Runs(Do(s, steps[0]), steps[1..]))
  }

  function After(s: State, steps: seq<Step>): State
    requires Runs(s, steps)
    decreases |steps|
  {
    if steps == [] then s else After(Do(s, steps[0]), steps[1..])
  }

  // ---- what every step keeps

  /** The counter is exactly the user's events between the first and the last of their steps. */
  predicate PendingExact(s: State, u: string) {
    Value(s.pending, u)
    == Count(s.counted, Of(u)) + Count(s.refused, Of(u)) + Count(s.queue, Of(u)) + Count(s.batch, Of(u))
  }

  /** Every event offered is in exactly one place. */
  predicate Conserved(s: State, p: Item -> bool) {
    Count(s.begun, p)
    == Count(s.counted, p) + Count(s.refused, p) + Count(s.undone, p) + Count(s.queue, p) + Count(s.todo, p)
       + CountFates(s.fates, p) + Count(s.lost, p)
  }

  function HandDropped(h: Hand, u: string): nat {
    if (h.Took? || h.TookBoth?) && h.uid == u then h.dropped else 0
  }

  function HandRisk(h: Hand, u: string): nat {
    if h.TookBoth? && h.uid == u then h.risk else 0
  }

  /** Every recorded drop is in the backlog, in the worker's hand, or told. */
  predicate DropsExact(s: State, u: string) {
    Count(s.lost, Of(u)) == Value(s.books.backlog, u) + HandDropped(s.hand, u) + Value(s.books.told, u)
  }

  predicate RiskExact(s: State, u: string) {
    Value(s.books.risked, u) == Value(s.books.atRisk, u) + HandRisk(s.hand, u) + Value(s.books.warned, u)
  }

  /** The worker appends no more than it took. */
  predicate WorkerOk(s: State, p: Item -> bool) {
    && Count(s.todo, p) <= Count(s.batch, p) && (!s.flushing ==> s.todo == s.batch && s.hand == Empty)
    && (s.hand != Empty ==> Count(s.todo, Of(s.hand.uid)) > 0)
  }

  lemma KeepsConserved(s: State, step: Step, p: Item -> bool)
    requires Enabled(s, step) && Conserved(s, p)
    ensures Conserved(Do(s, step), p)
  {
    match step
    case Raise(x) =>
      CountOne(s.begun, x, p);
      CountOne(s.counted, x, p);
    case Put(i) =>
      CountLess(s.counted, i, p);
      CountOne(s.queue, s.counted[i], p);
    case Full(i) =>
      CountLess(s.counted, i, p);
      CountOne(s.refused, s.counted[i], p);
    case Lower(i) =>
      CountLess(s.refused, i, p);
      CountOne(s.undone, s.refused[i], p);
    case RecordDrop(i) =>
      CountLess(s.undone, i, p);
      CountOne(s.lost, s.undone[i], p);
    case Get => CountOne(s.todo, s.queue[0], p);
    case Skip(u) => SettledConserves(s, u, Skipped, p);
    case Insert(ok) => SettledConserves(s, s.hand.uid, if ok then Stored else Unknown, p);
    case _ =>
  }

  lemma MetCounts(f: Fates, fate: Fate, xs: seq<Item>, p: Item -> bool)
    ensures CountFates(Met(f, fate, xs), p) == CountFates(f, p) + Count(xs, p)
  {
    match fate
    case Stored => CountAppend(f.stored, xs, p);
    case Unknown => CountAppend(f.unknown, xs, p);
    case Skipped => CountAppend(f.skipped, xs, p);
  }

  lemma SettledConserves(s: State, u: string, fate: Fate, p: Item -> bool)
    ensures var t := Settled(s, u, fate);
            Count(t.todo, p) + CountFates(t.fates, p) == Count(s.todo, p) + CountFates(s.fates, p)
  {
    CountSplit(s.todo, Of(u), p);
    MetCounts(s.fates, fate, Keep(s.todo, Of(u)), p);
  }

  predicate Moving(step: Step) {
    step.Raise? || step.Put? || step.Full? || step.Lower? || step.Get? || step.Finish?
  }

  lemma PendingUntouched(s: State, step: Step)
    requires Enabled(s, step) && !Moving(step)
    ensures var t := Do(s, step);
            t.pending == s.pending && t.counted == s.counted && t.refused == s.refused && t.queue == s.queue &&
              t.batch == s.batch
  {
  }

  lemma KeepsPending(s: State, step: Step, u: string)
    requires Enabled(s, step) && PendingExact(s, u)
    ensures PendingExact(Do(s, step), u)
  {
    if !Moving(step) {
      PendingUntouched(s, step);
    } else {
      KeepsPendingMoving(s, step, u);
    }
  }

  lemma KeepsPendingMoving(s: State, step: Step, u: string)
    requires Enabled(s, step) && PendingExact(s, u) && Moving(step)
    ensures PendingExact(Do(s, step), u)
  {
    match step
    case Raise(x) => CountOne(s.counted, x, Of(u));
    case Put(i) =>
      CountLess(s.counted, i, Of(u));
      CountOne(s.queue, s.counted[i], Of(u));
    case Full(i) =>
      CountLess(s.counted, i, Of(u));
      CountOne(s.refused, s.counted[i], Of(u));
    case Lower(i) => CountLess(s.refused, i, Of(u));
    case Get => CountOne(s.batch, s.queue[0], Of(u));
    case Finish => ReleasedValue(s.pending, s.batch, u);
  }

  lemma KeepsWorker(s: State, step: Step, p: Item -> bool)
    requires Enabled(s, step) && WorkerOk(s, p)
    ensures WorkerOk(Do(s, step), p)
  {
    match step
    case Get =>
      CountOne(s.todo, s.queue[0], p);
      CountOne(s.batch, s.queue[0], p);
    case Skip(u) => CountSplit(s.todo, Of(u), p);
    case Insert(_) => CountSplit(s.todo, Of(s.hand.uid), p);
    case _ =>
  }

  predicate Booking(step: Step) {
    step.RecordDrop? || step.Skip? || step.TakeDropped? || step.TakeAtRisk? || step.Insert?
  }

  /** The other steps leave the drop and risk books alone. */
  lemma BooksUntouched(s: State, step: Step)
    requires Enabled(s, step) && !Booking(step)
    ensures var t := Do(s, step);
            t.hand == s.hand && t.lost == s.lost && t.books == s.books
  {
  }

  lemma OutcomeBooks(b: Books, h: Hand, n: nat, ok: bool, u: string)
    requires h.TookBoth? && n > 0
    ensures var t := Outcome(b, h, n, ok);
            && Value(t.backlog, u) + Value(t.told, u) == Value(b.backlog, u) + HandDropped(h, u) + Value(b.told, u)
            && Value(t.atRisk, u) + Value(t.warned, u) - Value(t.risked, u)
               == Value(b.atRisk, u) + HandRisk(h, u) + Value(b.warned, u) - Value(b.risked, u)
  {
  }

  lemma KeepsDrops(s: State, step: Step, u: string, p: Item -> bool)
    requires Enabled(s, step) && DropsExact(s, u) && RiskExact(s, u) && WorkerOk(s, p)
    ensures DropsExact(Do(s, step), u) && RiskExact(Do(s, step), u)
  {
    if !Booking(step) {
      BooksUntouched(s, step);
    } else {
      match step
      case RecordDrop(i) => CountOne(s.lost, s.undone[i], Of(u));
      case Insert(ok) => OutcomeBooks(s.books, s.hand, Count(s.todo, Of(s.hand.uid)), ok, u);
      case _ =>
    }
  }

  /** In every reachable state the books balance, for every user and every set of events. */
  lemma {:induction false} BooksBalance(s: State, steps: seq<Step>, u: string, p: Item -> bool)
    requires Runs(s, steps) && Conserved(s, p) && PendingExact(s, u) && WorkerOk(s, p) && DropsExact(s, u) &&
               RiskExact(s, u)
    ensures var t := After(s, steps);
            Conserved(t, p) && PendingExact(t, u) && WorkerOk(t, p) && DropsExact(t, u) && RiskExact(t, u)
    decreases |steps|
  {
    if steps != [] {
      KeepsConserved(s, steps[0], p);
      KeepsPending(s, steps[0], u);
      KeepsWorker(s, steps[0], p);
      KeepsDrops(s, steps[0], u, p);
      BooksBalance(Do(s, steps[0]), steps[1..], u, p);
    }
  }

  /** The pending counter of every user, and its drop and risk totals, in every run. */
  lemma PendingIsInFlight(steps: seq<Step>, u: string)
    requires Runs(Init, steps)
    ensures var s := After(Init, steps); PendingExact(s, u) && DropsExact(s, u) && RiskExact(s, u)
  {
    BooksBalance(Init, steps, u, Of(u));
  }

  /** When nothing is in the worker's hand, drops are the backlog plus what the markers told. */
  lemma DropsAreToldOrKept(steps: seq<Step>, u: string)
    requires Runs(Init, steps) && After(Init, steps).hand == Empty
    ensures var s := After(Init, steps);
            && Count(s.lost, Of(u)) == Value(s.books.backlog, u) + Value(s.books.told, u)
            && Value(s.books.risked, u) == Value(s.books.atRisk, u) + Value(s.books.warned, u)
  {
    PendingIsInFlight(steps, u);
  }

  // ---- the read barrier

  lemma BegunGrows(s: State, step: Step)
    requires Enabled(s, step)
    ensures s.begun <= Do(s, step).begun
  {
  }

  lemma {:induction false} OfferedStays(s: State, steps: seq<Step>, x: Item)
    requires Runs(s, steps) && x in s.begun
    ensures x in After(s, steps).begun
    decreases |steps|
  {
    if steps != [] {
      BegunGrows(s, steps[0]);
      OfferedStays(Do(s, steps[0]), steps[1..], x);
    }
  }

  /** A barrier that sees zero: every event of the user offered before it, however long before, has
      been inserted, or its insert raised, or tracing was off for the user, or a full queue turned it
      away. */
  lemma ZeroBarrier(before: seq<Step>, after: seq<Step>, x: Item)
    requires Runs(Init, before) && x in After(Init, before).begun
    requires Runs(After(Init, before), after) && Value(After(After(Init, before), after).pending, x.uid) == 0
    ensures var t := After(After(Init, before), after);
            || x in t.fates.stored || x in t.fates.unknown || x in t.fates.skipped || x in t.lost || x in t.undone
  {
    var s := After(Init, before);
    var t := After(s, after);
    var p := (y: Item) => y == x;
    OfferedStays(s, after, x);
    BooksBalance(Init, before, x.uid, p);
    BooksBalance(s, after, x.uid, p);
    OnlyMine(t.counted, x);
    OnlyMine(t.refused, x);
    OnlyMine(t.queue, x);
    OnlyMine(t.batch, x);
    InCounts(t.begun, x);
    InCounts(t.fates.stored, x);
    InCounts(t.fates.unknown, x);
    InCounts(t.fates.skipped, x);
    InCounts(t.lost, x);
    InCounts(t.undone, x);
  }

  /** Every event of unknown outcome is in the user's at-risk total. */
  predicate UnknownIsRisked(s: State, u: string) {
    Count(s.fates.unknown, Of(u)) <= Value(s.books.risked, u)
  }

  lemma UnknownStep(s: State, step: Step, u: string)
    requires Enabled(s, step) && UnknownIsRisked(s, u)
    ensures UnknownIsRisked(Do(s, step), u)
  {
    if step.Insert? && !step.ok {
      CountAppend(s.fates.unknown, Keep(s.todo, Of(s.hand.uid)), Of(u));
      KeepCounts(s.todo, s.hand.uid, u);
    } else {
      UnknownUntouched(s, step);
    }
  }

  lemma UnknownUntouched(s: State, step: Step)
    requires Enabled(s, step) && !(step.Insert? && !step.ok)
    ensures Do(s, step).fates.unknown == s.fates.unknown && Do(s, step).books.risked == s.books.risked
  {
  }

  lemma {:induction false} KeepCounts(s: seq<Item>, v: string, u: string)
    ensures Count(Keep(s, Of(v)), Of(u)) == if u == v then Count(s, Of(v)) else 0
  {
    if s != [] {
      KeepCounts(s[1..], v, u);
      var rest := Keep(s[1..], Of(v));
      assert ([s[0]] + rest)[1..] == rest && [] + rest == rest;
    }
  }

  lemma {:induction false} UnknownIsAtRisk(s: State, steps: seq<Step>, u: string)
    requires Runs(s, steps) && UnknownIsRisked(s, u)
    ensures UnknownIsRisked(After(s, steps), u)
    decreases |steps|
  {
    if steps != [] {
      UnknownStep(s, steps[0], u);
      UnknownIsAtRisk(Do(s, steps[0]), steps[1..], u);
    }
  }

  lemma {:induction false} OnlyMine(s: seq<Item>, x: Item)
    ensures Count(s, (y: Item) => y == x) <= Count(s, Of(x.uid))
  {
    if s != [] { OnlyMine(s[1..], x); }
  }

  lemma {:induction false} InCounts(s: seq<Item>, x: Item)
    ensures Count(s, (y: Item) => y == x) > 0 <==> x in s
  {
    if s != [] { InCounts(s[1..], x); }
  }

  // ---- appending one user's events

  function Emptied(b: Books, u: string): Books {
    b.(backlog := b.backlog - {u}, atRisk := b.atRisk - {u})
  }

  /** The two backlogs behind their lock, and `_append_events` over them. */
  class Ledger {
    var books: Books

    constructor ()
      ensures books == Init.books
    {
      books := Init.books;
    }

    method TakeDroppedCount(u: string) returns (n: nat)
      modifies this
      ensures n == old(Value(books.backlog, u)) && books == old(books).(backlog := old(books).backlog - {u})
    {
      n := Value(books.backlog, u);
      books := books.(backlog := books.backlog - {u});
    }

    method TakeAtRiskCount(u: string) returns (n: nat)
      modifies this
      ensures n == old(Value(books.atRisk, u)) && books == old(books).(atRisk := old(books).atRisk - {u})
    {
      n := Value(books.atRisk, u);
      books := books.(atRisk := books.atRisk - {u});
    }

    method Append(u: string, events: seq<Item>, enabled: bool, ok: bool)
      modifies this
      ensures events == [] || !enabled ==> books == old(books)
      ensures events != [] && enabled ==>
                books == Outcome(Emptied(old(books), u),
                                 TookBoth(u, Value(old(books).backlog, u), Value(old(books).atRisk, u)), |events|, ok)
    {
      if events == [] || !enabled {
        return;
      }
      var dropped := TakeDroppedCount(u);
      var risk := TakeAtRiskCount(u);
      assert books == Emptied(old(books), u);
      if ok {
        books := Inserted(books, u, dropped, risk);
      } else {
        RecordFailure(u, dropped, risk, |events|);
      }
    }

    /** The two restores after an insert raised. */
    method RecordFailure(u: string, dropped: nat, risk: nat, n: nat)
      modifies this
      ensures books == Failed(old(books), u, dropped, risk, n)
    {
      var mine := n + One(dropped > 0);
      if dropped > 0 {
        books := books.(backlog := Up(books.backlog, u, Max1(dropped)));
      }
      books := books.(atRisk := Up(books.atRisk, u, Max1(risk + mine)), risked := AddTo(books.risked, u, mine));
    }
  }

  /** One append keeps every user's drop total, and its risk total but for what it puts at risk. */
  lemma AppendConserves(b: Books, u: string, n: nat, ok: bool, v: string)
    requires n > 0
    ensures var t := Outcome(Emptied(b, u), TookBoth(u, Value(b.backlog, u), Value(b.atRisk, u)), n, ok);
            && Value(t.backlog, v) + Value(t.told, v) == Value(b.backlog, v) + Value(b.told, v)
            && Value(t.atRisk, v) + Value(t.warned, v) - Value(t.risked, v)
                 == Value(b.atRisk, v) + Value(b.warned, v) - Value(b.risked, v)
  {
    OutcomeBooks(Emptied(b, u), TookBoth(u, Value(b.backlog, u), Value(b.atRisk, u)), n, ok, v);
  }

  /** The three locked steps of the worker, uninterrupted, are one append. */
  lemma StepsAppend(s: State, u: string, ok: bool)
    requires Enabled(s, TakeDropped(u))
    ensures var s1 := Do(s, TakeDropped(u)); Enabled(s1, TakeAtRisk)
    ensures var s2 := Do(Do(s, TakeDropped(u)), TakeAtRisk);
            && Enabled(s2, Insert(ok))
            && Do(s2, Insert(ok)).books
               == Outcome(Emptied(s.books, u), TookBoth(u, Value(s.books.backlog, u), Value(s.books.atRisk, u)),
                 Count(s.todo, Of(u)), ok)
  {
  }
}
