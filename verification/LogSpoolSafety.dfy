/** No acknowledged line is ever lost, and no line is stored more often than it was acknowledged
    or interrupted, over every run of the spool with crashes between any two disk steps. */
module LogSpoolSafety {
  import opened LogText
  import opened Prelude
  import opened LogSpool
  import opened LogSpoolFiles

  // ---- the cursor

  lemma {:induction false} CountGrows(log: seq<Entry>, m: nat, n: nat, ns: nat)
    requires m <= n <= |log|
    ensures CountAt(log, m, ns) <= CountAt(log, n, ns)
  {
    if m < n {
      CountGrows(log, m, n - 1, ns);
    }
  }

  lemma {:induction false} CountBelow(log: seq<Entry>, n: nat, ns: nat)
    requires n <= |log|
    requires forall i :: 0 <= i < n ==> log[i].ns != ns
    ensures CountAt(log, n, ns) == 0
  {
    if n > 0 {
      CountBelow(log, n - 1, ns);
    }
  }

  ghost predicate ResumesAt(log: seq<Entry>, from: nat, since: nat, ack: nat) {
    && from <= |log|
    && if from == 0 then since == 0 && ack == 0
       else since == log[from - 1].ns && ack == CountAt(log, from, since)
  }

  /** The follower skips exactly the acknowledged entries. */
  lemma SkipsExactlyAcknowledged(log: seq<Entry>, from: nat, since: nat, ack: nat, i: nat)
    requires LogOk(log) && ResumesAt(log, from, since, ack) && i < |log|
    ensures Skips(log[i].ns, since, ack, CountAt(log, i, since)) <==> i < from
  {
    if i < from {
      CountGrows(log, i + 1, from, since);
    } else if from > 0 {
      CountGrows(log, from, i, since);
    }
  }

  /** An entry is covered by a cursor when its stamp is older, or it is among the first `count`
      entries of the cursor's stamp. */
  lemma AcknowledgedIsPrefix(m: Mark, id: nat, log: seq<Entry>, i: nat)
    requires LogOk(log) && MarkOk(m, id, log) && m.file.Some? && m.file.value.id == id && i < |log|
    ensures i < m.acked <==>
            log[i].ns < m.file.value.ns ||
            (log[i].ns == m.file.value.ns && CountAt(log, i + 1, log[i].ns) <= m.file.value.count)
  {
    SkipsExactlyAcknowledged(log, m.acked, m.file.value.ns, m.file.value.count, i);
  }

  /** The cursor written after entry `i` acknowledges exactly the first `i + 1` entries. */
  lemma AdvanceMarks(log: seq<Entry>, from: nat, since: nat, ack: nat, i: nat, latest: nat, count: nat)
    requires LogOk(log) && ResumesAt(log, from, since, ack) && from <= i < |log|
    requires if i <= from then latest == since && count == ack
             else latest == log[i - 1].ns && count == CountAt(log, i, latest)
    ensures Advance(log[i].ns, latest, count) == (log[i].ns, CountAt(log, i + 1, log[i].ns))
  {
    if log[i].ns > latest {
      CountBelow(log, i, log[i].ns);
    }
  }

  // ---- the invariant: control

  ghost predicate CursorOk(s: State) {
    && s.cursor.live in s.cursor.images
    && (forall m :: m in s.cursor.images ==> MarkOk(m, s.id, s.log) && s.lo <= m.acked <= s.cursor.live.acked)
    && s.lo <= s.cursor.live.acked <= s.hi <= |s.log|
    && (s.session.NoSession? ==> s.hi == s.cursor.live.acked)
  }

  ghost predicate SessionOk(s: State) {
    s.session.Session? ==>
      var f := s.session;
      && f.next <= |s.log| && (!f.phase.Reading? ==> f.next < |s.log|)
      && ResumesAt(s.log, f.from, f.since, f.ack)
      && f.seen == CountAt(s.log, if f.phase.Reading? then f.next else f.next + 1, f.since)
      && (if f.next <= f.from then f.latest == f.since && f.count == f.ack
          else f.latest == s.log[f.next - 1].ns && f.count == CountAt(s.log, f.next, f.latest))
      && (!f.phase.Reading? ==> f.from <= f.next)
      && (f.from <= f.next ==> s.hi == if f.phase.Landed? then f.next + 1 else f.next)
      && (f.next < f.from ==> s.hi == f.from)
      && (!f.phase.Reading? ==> s.lo <= f.next)
      && (!s.op.CursorReplaced? ==> s.cursor.live.acked == if f.next < f.from then f.from else f.next)
  }

  predicate Appending(op: Op) {
    op.AppendOpened? || op.AppendRepaired? || op.AppendWritten? || op.AppendSynced?
  }

  ghost predicate PhaseOk(s: State) {
    && (Appending(s.op) <==> s.session.Session? && s.session.phase.Storing?)
    && (Appending(s.op) ==> AtEntry(s, Storing) && Current(s).text.Some?)
    && (s.op.CursorReplaced? ==> AtEntry(s, Landed) && s.cursor.live.acked == s.session.next + 1)
  }

  ghost predicate Control(s: State) {
    && LogOk(s.log) && CursorOk(s) && PhaseOk(s) && SessionOk(s)
    && |s.extras| <= s.interruptions
  }

  // ---- the invariant: files

  function StageAt(s: State, h: int): Op {
    if s.op.Sealing() then (if s.op.hour == h then s.op else Idle)
    else if Appending(s.op) && AtEntry(s, Storing) && HourOf(Current(s)) == h then s.op
    else Idle
  }

  function RecordAt(s: State, h: int): Bytes {
    if Appending(s.op) && AtEntry(s, Storing) && HourOf(Current(s)) == h && Current(s).text.Some?
    then Current(s).text.value else []
  }

  function Ceiling(s: State, h: int): multiset<Bytes>
    requires s.lo <= |s.log|
  {
    Owed(s, s.lo, h) + Filed(s.extras, h) + Filed(InFlight(s), h)
  }

  ghost predicate FilesAt(s: State, h: int)
    requires s.lo <= |s.log| && s.hi <= |s.log|
  {
    HourOk(At(s.slots, h), StageAt(s, h), RecordAt(s, h), Owed(s, s.hi, h), Ceiling(s, h), s.sealBroken)
  }

  ghost predicate Inv(s: State) {
    Control(s) && forall h :: FilesAt(s, h)
  }

  lemma {:induction false} FiledAppend(a: seq<Entry>, b: seq<Entry>, h: int)
    ensures Filed(a + b, h) == Filed(a, h) + Filed(b, h)
  {
    if b == [] {
      assert a + b == a;
    } else {
      assert (a + b)[..|a + b| - 1] == a + b[..|b| - 1];
      FiledAppend(a, b[..|b| - 1], h);
    }
  }

  lemma OwedGrows(s: State, m: nat, n: nat, h: int)
    requires m <= n <= |s.log|
    ensures Owed(s, m, h) <= Owed(s, n, h)
  {
    assert s.log[..n] == s.log[..m] + s.log[m..n];
    FiledAppend(s.log[..m], s.log[m..n], h);
  }

  lemma OwedNext(s: State, n: nat, h: int)
    requires n < |s.log|
    ensures Owed(s, n + 1, h) == Owed(s, n, h) + FiledOne(s.log[n], h)
  {
    assert s.log[..n + 1][..n] == s.log[..n];
  }

  // ---- control is preserved

  lemma DueIsNext(s: State)
    requires Control(s) && AtEntry(s, Reading)
    ensures Due(s) <==> s.session.from <= s.session.next
  {
    var f := s.session;
    SkipsExactlyAcknowledged(s.log, f.from, f.since, f.ack, f.next);
  }

  lemma ControlSkip(s: State)
    requires Control(s) && AtEntry(s, Reading) && !Due(s)
    ensures Control(DoSkipLine(s))
  {
    DueIsNext(s);
  }

  lemma ControlDrop(s: State)
    requires Control(s) && AtEntry(s, Reading) && Due(s) && Current(s).text.None?
    ensures Control(DoDropLine(s))
  {
    DueIsNext(s);
  }

  lemma ControlAppendOpen(s: State)
    requires Control(s) && s.op == Idle && AtEntry(s, Reading) && Due(s) && Current(s).text.Some?
    ensures Control(DoAppendOpen(s))
  {
    DueIsNext(s);
  }

  lemma ControlOpen(s: State, start: nat)
    requires Control(s) && Enabled(s, OpenSession(start))
    ensures Control(DoOpenSession(s, start))
  {
    CountBelow(s.log, start, Since(s.cursor.live, s.id));
  }

  lemma ControlContainer(s: State, id: nat, log: seq<Entry>)
    requires Control(s) && Enabled(s, NewContainer(id, log))
    ensures Control(DoNewContainer(s, id, log))
  {
  }

  /** Steps inside an append change only the file and the stage. */
  lemma ControlStage(s: State, t: State)
    requires Control(s) && Appending(s.op) && Appending(t.op) && t == s.(slots := t.slots, op := t.op)
    ensures Control(t)
  {
  }

  lemma ControlLand(s: State)
    requires Control(s) && Appending(s.op)
    ensures Control(DoAppendSyncDir(s))
  {
  }

  lemma ControlCursorReplace(s: State)
    requires Control(s) && s.op == Idle && AtEntry(s, Landed)
    ensures Control(DoCursorReplace(s))
  {
    var f := s.session;
    AdvanceMarks(s.log, f.from, f.since, f.ack, f.next, f.latest, f.count);
  }

  lemma ControlCursorSync(s: State)
    requires Control(s) && s.op.CursorReplaced?
    ensures Control(DoCursorSync(s))
  {
    var f := s.session;
    AdvanceMarks(s.log, f.from, f.since, f.ack, f.next, f.latest, f.count);
  }

  predicate FollowerOp(op: Op) {
    Appending(op) || op.CursorReplaced?
  }

  /** Sealing touches nothing but the files. */
  lemma ControlSeal(s: State, t: State)
    requires Control(s) && t == s.(slots := t.slots, op := t.op, sealBroken := t.sealBroken)
    requires !FollowerOp(s.op) && !FollowerOp(t.op)
    ensures Control(t)
  {
  }

  lemma ControlFails(s: State)
    requires Control(s) && s.session.Session?
    ensures Control(DoFollowerFails(s))
  {
  }

  lemma ControlCrash(s: State, parts: map<int, Option<Bytes>>, gzs: map<int, seq<Bytes>>, mark: Mark)
    requires Control(s) && parts.Keys == s.slots.Keys && gzs.Keys == s.slots.Keys && mark in s.cursor.images
    ensures Control(DoCrash(s, parts, gzs, mark))
  {
  }

  // ---- the books: what is owed and what is allowed

  predicate Bounded(s: State) {
    s.lo <= |s.log| && s.hi <= |s.log|
  }

  ghost predicate BooksKept(s: State, t: State, h: int)
    requires Bounded(s) && Bounded(t)
  {
    Owed(t, t.hi, h) <= Owed(s, s.hi, h) && Ceiling(s, h) <= Ceiling(t, h)
  }

  lemma FiledSingle(e: Entry, h: int)
    ensures Filed([e], h) == FiledOne(e, h)
  {
    assert [e][..0] == [];
  }

  lemma CeilingIdle(s: State, h: int)
    requires Bounded(s) && InFlight(s) == []
    ensures Ceiling(s, h) == Owed(s, s.lo, h) + Filed(s.extras, h)
  {
  }

  lemma CeilingBusy(s: State, h: int)
    requires Bounded(s) && s.session.Session? && s.session.next < |s.log| && InFlight(s) == [Current(s)]
    ensures Ceiling(s, h) == Owed(s, s.lo, h) + Filed(s.extras, h) + FiledOne(Current(s), h)
  {
    FiledSingle(Current(s), h);
  }

  lemma OwedFrame(s: State, t: State, n: nat, h: int)
    requires n <= |s.log| && t.log == s.log && t.base == s.base
    ensures Owed(t, n, h) == Owed(s, n, h)
  {
  }

  lemma Shift(a: multiset<Bytes>, b: multiset<Bytes>, one: multiset<Bytes>, e: multiset<Bytes>)
    requires a <= b
    ensures a + e + one <= (b + one) + e
  {
  }

  lemma BooksDrop(s: State, h: int)
    requires Bounded(s) && AtEntry(s, Reading) && Current(s).text.None? && s.hi == s.session.next
    ensures BooksKept(s, DoDropLine(s), h)
  {
    var t := DoDropLine(s);
    OwedNext(s, s.session.next, h);
    OwedFrame(s, t, s.lo, h);
    OwedFrame(s, t, t.hi, h);
    CeilingIdle(s, h);
    CeilingBusy(t, h);
  }

  lemma BooksContainer(s: State, id: nat, log: seq<Entry>, h: int)
    requires Bounded(s) && s.lo <= s.hi && s.session == NoSession
    ensures BooksKept(s, DoNewContainer(s, id, log), h)
  {
    var t := DoNewContainer(s, id, log);
    FiledAppend(s.base, s.log[..s.hi], h);
    assert t.log[..0] == [];
    OwedGrows(s, s.lo, s.hi, h);
  }

  /** An append counts its record in the ceiling from the start. */
  lemma BooksAppend(s: State, h: int)
    requires Bounded(s) && AtEntry(s, Reading)
    ensures var t := DoAppendOpen(s);
            && Owed(t, t.hi, h) == Owed(s, s.hi, h)
            && Ceiling(t, h) == Ceiling(s, h) + FiledOne(Current(s), h)
  {
    var t := DoAppendOpen(s);
    OwedFrame(s, t, s.lo, h);
    OwedFrame(s, t, t.hi, h);
    CeilingIdle(s, h);
    CeilingBusy(t, h);
  }

  lemma BooksInFlight(s: State, h: int)
    requires Bounded(s) && AtEntry(s, Storing)
    ensures FiledOne(Current(s), h) <= Ceiling(s, h)
  {
    CeilingBusy(s, h);
  }

  lemma BooksLand(s: State, h: int)
    requires Bounded(s) && AtEntry(s, Storing) && s.hi == s.session.next
    ensures var t := DoAppendSyncDir(s);
            Owed(t, t.hi, h) == Owed(s, s.hi, h) + FiledOne(Current(s), h) && Ceiling(t, h) == Ceiling(s, h)
  {
    var t := DoAppendSyncDir(s);
    OwedNext(s, s.session.next, h);
    OwedFrame(s, t, s.lo, h);
    OwedFrame(s, t, t.hi, h);
    CeilingBusy(s, h);
    CeilingBusy(t, h);
  }

  lemma CursorSyncCeiling(s: State, h: int)
    requires Bounded(s) && AtEntry(s, Landed)
    ensures var t, n := DoCursorSync(s), s.session.next;
            && Owed(t, t.hi, h) == Owed(s, s.hi, h)
            && Ceiling(t, h) == Owed(s, n, h) + FiledOne(Current(s), h) + Filed(s.extras, h)
  {
    var t, n := DoCursorSync(s), s.session.next;
    OwedNext(s, n, h);
    OwedFrame(s, t, n + 1, h);
    OwedFrame(s, t, t.hi, h);
    CeilingIdle(t, h);
  }

  lemma BooksCursorSync(s: State, h: int)
    requires Bounded(s) && AtEntry(s, Landed) && s.lo <= s.session.next
    ensures BooksKept(s, DoCursorSync(s), h)
  {
    CursorSyncCeiling(s, h);
    CeilingBusy(s, h);
    OwedGrows(s, s.lo, s.session.next, h);
    Shift(Owed(s, s.lo, h), Owed(s, s.session.next, h), FiledOne(Current(s), h), Filed(s.extras, h));
  }

  /** An interruption moves the record in flight to the extras. */
  lemma BooksStop(s: State, t: State, h: int)
    requires Bounded(s) && t.log == s.log && t.base == s.base && t.session == NoSession
    requires t.extras == s.extras + InFlight(s) && s.lo <= t.lo <= |s.log| && t.hi <= s.hi
    ensures BooksKept(s, t, h)
  {
    FiledAppend(s.extras, InFlight(s), h);
    OwedGrows(s, t.hi, s.hi, h);
    OwedGrows(s, s.lo, t.lo, h);
  }

  // ---- files are preserved

  /** The hour of `t` reads exactly as stated. */
  ghost predicate Reads(t: State, h: int, x: Slot, op: Op, r: Bytes,
                        low: multiset<Bytes>, up: multiset<Bytes>, broken: bool) {
    && Bounded(t)
    && At(t.slots, h) == x && StageAt(t, h) == op && RecordAt(t, h) == r
    && Owed(t, t.hi, h) == low && Ceiling(t, h) == up && t.sealBroken == broken
  }

  lemma FilesRead(t: State, h: int, x: Slot, op: Op, r: Bytes,
                  low: multiset<Bytes>, up: multiset<Bytes>, broken: bool)
    requires Reads(t, h, x, op, r, low, up, broken)
    ensures FilesAt(t, h) <==> HourOk(x, op, r, low, up, broken)
  {
  }

  /** An hour whose files a step leaves alone. */
  lemma FilesSame(s: State, t: State, h: int)
    requires Bounded(s) && Bounded(t) && FilesAt(s, h) && BooksKept(s, t, h)
    requires At(t.slots, h) == At(s.slots, h) && StageAt(t, h) == StageAt(s, h) && RecordAt(t, h) == RecordAt(s, h)
    requires s.sealBroken ==> t.sealBroken
    ensures FilesAt(t, h)
  {
    Weaken(At(s.slots, h), StageAt(s, h), RecordAt(s, h), Owed(s, s.hi, h), Ceiling(s, h), s.sealBroken,
           Owed(t, t.hi, h), Ceiling(t, h), t.sealBroken);
  }

  predicate AtRecord(s: State, h: int) {
    AtEntry(s, Storing) && Current(s).text.Some? && HourOf(Current(s)) == h && Appending(s.op) && Bounded(s)
  }

  lemma FilesAppendOpen(s: State, h: int)
    requires Bounded(s) && FilesAt(s, h) && s.op == Idle && AtEntry(s, Reading)
    requires Current(s).text.Some? && HourOf(Current(s)) == h && IsRecord(Current(s).text.value)
    ensures FilesAt(DoAppendOpen(s), h)
  {
    BooksAppend(s, h);
    var x, r, low, up := At(s.slots, h), Current(s).text.value, Owed(s, s.hi, h), Ceiling(s, h);
    var part := if x.part.live.Some? then x.part else x.part.Write(Some([]), {});
    FilesRead(s, h, x, Idle, [], low, up, s.sealBroken);
    Opens(x, r, low, up, s.sealBroken);
    FilesRead(DoAppendOpen(s), h, x.(part := part), AppendOpened, r, low, up + multiset{r}, s.sealBroken);
  }

  lemma AppendReads(s: State, h: int)
    requires AtRecord(s, h)
    ensures Reads(s, h, At(s.slots, h), s.op, Current(s).text.value, Owed(s, s.hi, h), Ceiling(s, h), s.sealBroken)
  {
  }

  lemma AppendMoves(s: State, t: State, h: int)
    requires AtRecord(s, h) && Appending(t.op) && t == s.(slots := t.slots, op := t.op)
    requires HourOk(At(t.slots, h), t.op, Current(s).text.value, Owed(s, s.hi, h), Ceiling(s, h), s.sealBroken)
    ensures FilesAt(t, h)
  {
    BooksFrame(s, t, h);
    AppendReads(t, h);
    FilesRead(t, h, At(t.slots, h), t.op, Current(s).text.value, Owed(s, s.hi, h), Ceiling(s, h), s.sealBroken);
  }

  lemma RecordAllowed(s: State, h: int)
    requires AtRecord(s, h)
    ensures Current(s).text.value in Ceiling(s, h)
  {
    BooksInFlight(s, h);
    assert Current(s).text.value in FiledOne(Current(s), h);
  }

  lemma FilesRepair(s: State, h: int)
    requires AtRecord(s, h) && s.op.AppendOpened? && FilesAt(s, h)
    ensures FilesAt(DoAppendRepair(s), h)
  {
    AppendReads(s, h);
    Repairs(At(s.slots, h), Current(s).text.value, Owed(s, s.hi, h), Ceiling(s, h), s.sealBroken);
    AppendMoves(s, DoAppendRepair(s), h);
  }

  lemma FilesWrite(s: State, k: nat, h: int)
    requires AtRecord(s, h) && s.op.AppendRepaired? && FilesAt(s, h) && k <= |Current(s).text.value|
    ensures FilesAt(DoAppendWrite(s, k), h)
  {
    var r := Current(s).text.value;
    RecordAllowed(s, h);
    AppendReads(s, h);
    Writes(At(s.slots, h), s.op.w, k, r, Owed(s, s.hi, h), Ceiling(s, h), s.sealBroken);
    AppendMoves(s, DoAppendWrite(s, k), h);
  }

  lemma FilesSync(s: State, h: int)
    requires AtRecord(s, h) && s.op.AppendWritten? && FilesAt(s, h) && s.op.k == |Current(s).text.value|
    ensures FilesAt(DoAppendSync(s), h)
  {
    AppendReads(s, h);
    Syncs(At(s.slots, h), s.op.w, Current(s).text.value, Owed(s, s.hi, h), Ceiling(s, h), s.sealBroken);
    AppendMoves(s, DoAppendSync(s), h);
  }

  lemma FilesLand(s: State, h: int)
    requires AtRecord(s, h) && s.op.AppendSynced? && FilesAt(s, h) && s.hi == s.session.next
    ensures FilesAt(DoAppendSyncDir(s), h)
  {
    var x, r, low, up := At(s.slots, h), Current(s).text.value, Owed(s, s.hi, h), Ceiling(s, h);
    BooksLand(s, h);
    FilesRead(s, h, x, s.op, r, low, up, s.sealBroken);
    Lands(x, s.op.w, r, low, up, s.sealBroken);
    FilesRead(DoAppendSyncDir(s), h, x.(part := x.part.Sync()), Idle, [], low + multiset{r}, up, s.sealBroken);
  }

  // Sealing: `op` is the sealer's stage in hour `h`, or idle.

  predicate SealerAt(op: Op, h: int) {
    op == Idle || (op.Sealing() && op.hour == h)
  }

  lemma SealerArgs(s: State, h: int)
    requires Bounded(s) && SealerAt(s.op, h)
    ensures Reads(s, h, At(s.slots, h), s.op, [], Owed(s, s.hi, h), Ceiling(s, h), s.sealBroken)
  {
  }

  lemma SealerReads(s: State, h: int)
    requires Bounded(s) && SealerAt(s.op, h)
    ensures FilesAt(s, h) <==>
            HourOk(At(s.slots, h), s.op, [], Owed(s, s.hi, h), Ceiling(s, h), s.sealBroken)
  {
    SealerArgs(s, h);
    FilesRead(s, h, At(s.slots, h), s.op, [], Owed(s, s.hi, h), Ceiling(s, h), s.sealBroken);
  }

  lemma SealerMoves(s: State, t: State, h: int, x: Slot)
    requires Bounded(s) && SealerAt(s.op, h) && SealerAt(t.op, h)
    requires t == s.(slots := t.slots, op := t.op, sealBroken := t.sealBroken) && At(t.slots, h) == x
    requires HourOk(x, t.op, [], Owed(s, s.hi, h), Ceiling(s, h), t.sealBroken)
    ensures FilesAt(t, h)
  {
    BooksFrame(s, t, h);
    SealerReads(t, h);
  }

  lemma BooksFrame(s: State, t: State, h: int)
    requires Bounded(s) && t.log == s.log && t.base == s.base && t.extras == s.extras
    requires t.session == s.session && t.lo == s.lo && t.hi == s.hi
    ensures Owed(t, t.hi, h) == Owed(s, s.hi, h) && Ceiling(t, h) == Ceiling(s, h)
  {
  }

  lemma SealerIdleAt(s: State, h: int, k: int)
    requires SealerAt(s.op, h) && k != h
    ensures StageAt(s, k) == Idle && RecordAt(s, k) == []
  {
  }

  lemma SealerElsewhere(s: State, t: State, h: int, k: int)
    requires Bounded(s) && SealerAt(s.op, h) && SealerAt(t.op, h) && k != h && FilesAt(s, k)
    requires t == s.(slots := t.slots, op := t.op, sealBroken := t.sealBroken)
    requires At(t.slots, k) == At(s.slots, k) && (s.sealBroken ==> t.sealBroken)
    ensures FilesAt(t, k)
  {
    SealerIdleAt(s, h, k);
    SealerIdleAt(t, h, k);
    BooksFrame(s, t, k);
    FilesSame(s, t, k);
  }

  lemma FilesSealStart(s: State, h: int)
    requires Bounded(s) && FilesAt(s, h) && s.op == Idle && At(s.slots, h).part.live.Some?
    ensures FilesAt(DoSealRepair(s, h), h)
  {
    var x := At(s.slots, h);
    SealerReads(s, h);
    SealRepairs(x, h, Owed(s, s.hi, h), Ceiling(s, h), s.sealBroken);
    SealerMoves(s, DoSealRepair(s, h), h, x.(part := x.part.Write(Some(WholePrefix(PartBytes(x.part.live))), {})));
  }

  lemma FilesSealPartSync(s: State)
    requires Bounded(s) && s.op.SealRepaired? && FilesAt(s, s.op.hour)
    ensures FilesAt(DoSealPartSync(s), s.op.hour)
  {
    var h := s.op.hour;
    var x := At(s.slots, h);
    SealerReads(s, h);
    SealPartSyncs(x, h, s.op.w, Owed(s, s.hi, h), Ceiling(s, h), s.sealBroken);
    SealerMoves(s, DoSealPartSync(s), h, x.(part := SyncedPart(x.part)));
  }

  lemma FilesSealReplace(s: State)
    requires Bounded(s) && s.op.SealPartSynced? && FilesAt(s, s.op.hour)
    ensures FilesAt(DoSealReplace(s), s.op.hour)
  {
    var h := s.op.hour;
    var x := At(s.slots, h);
    SealerReads(s, h);
    SealReplaces(x, h, s.op.w, Owed(s, s.hi, h), Ceiling(s, h), s.sealBroken);
    SealerMoves(s, DoSealReplace(s), h, x.(gz := x.gz.Write(x.gz.live + [s.op.w], {})));
  }

  lemma FilesSealArchiveSync(s: State)
    requires Bounded(s) && s.op.SealReplaced? && FilesAt(s, s.op.hour)
    ensures FilesAt(DoSealArchiveSync(s), s.op.hour)
  {
    var h := s.op.hour;
    var x := At(s.slots, h);
    SealerReads(s, h);
    SealArchiveSyncs(x, h, Owed(s, s.hi, h), Ceiling(s, h), s.sealBroken);
    SealerMoves(s, DoSealArchiveSync(s), h, Slot(x.part.Sync(), x.gz.Sync()));
  }

  lemma FilesSealUnlink(s: State)
    requires Bounded(s) && s.op.SealArchiveSynced? && FilesAt(s, s.op.hour)
    ensures FilesAt(DoSealUnlink(s), s.op.hour)
  {
    var h := s.op.hour;
    var x := At(s.slots, h);
    SealerReads(s, h);
    SealUnlinks(x, h, Owed(s, s.hi, h), Ceiling(s, h), s.sealBroken);
    SealerMoves(s, DoSealUnlink(s), h, x.(part := x.part.Write(None, {})));
  }

  lemma FilesSealDone(s: State)
    requires Bounded(s) && s.op.SealUnlinked? && FilesAt(s, s.op.hour)
    ensures FilesAt(DoSealDone(s), s.op.hour)
  {
    var h := s.op.hour;
    var x := At(s.slots, h);
    SealerReads(s, h);
    SealFinishes(x, h, Owed(s, s.hi, h), Ceiling(s, h), s.sealBroken);
    SealerMoves(s, DoSealDone(s), h, x.(part := x.part.Sync()));
  }

  lemma FilesSealFails(s: State)
    requires Bounded(s) && s.op.Sealing() && FilesAt(s, s.op.hour)
    ensures FilesAt(DoSealFails(s), s.op.hour)
  {
    var h := s.op.hour;
    SealerReads(s, h);
    Abandons(At(s.slots, h), s.op, [], Owed(s, s.hi, h), Ceiling(s, h), s.sealBroken);
    SealerMoves(s, DoSealFails(s), h, At(s.slots, h));
  }

  // Interruptions: every hour falls idle, on the files a crash leaves or on those in place.

  lemma IdleAt(t: State, h: int, x: Slot)
    requires Bounded(t) && t.op == Idle && At(t.slots, h) == x
    ensures Reads(t, h, x, Idle, [], Owed(t, t.hi, h), Ceiling(t, h), t.sealBroken)
  {
  }

  lemma FallsIdle(s: State, t: State, h: int, x: Slot)
    requires Bounded(s) && Bounded(t) && t.op == Idle && At(t.slots, h) == x && BooksKept(s, t, h)
    requires HourOk(x, Idle, [], Owed(s, s.hi, h), Ceiling(s, h), s.sealBroken || StageAt(s, h).PastReplace())
    requires s.sealBroken || StageAt(s, h).PastReplace() ==> t.sealBroken
    ensures FilesAt(t, h)
  {
    Weaken(x, Idle, [], Owed(s, s.hi, h), Ceiling(s, h), s.sealBroken || StageAt(s, h).PastReplace(),
           Owed(t, t.hi, h), Ceiling(t, h), t.sealBroken);
    IdleAt(t, h, x);
    FilesRead(t, h, x, Idle, [], Owed(t, t.hi, h), Ceiling(t, h), t.sealBroken);
  }

  lemma StopBooks(s: State, h: int)
    requires Control(s) && s.session.Session?
    ensures Bounded(s) && Bounded(DoFollowerFails(s)) && BooksKept(s, DoFollowerFails(s), h)
  {
    BooksStop(s, DoFollowerFails(s), h);
  }

  lemma StopArgs(s: State, h: int)
    requires s.session.Session?
    ensures var t := DoFollowerFails(s);
            && At(t.slots, h) == At(s.slots, h) && t.sealBroken == s.sealBroken
            && (!s.op.Sealing() ==> t.op == Idle && !StageAt(s, h).PastReplace())
            && (s.op.Sealing() ==> StageAt(t, h) == StageAt(s, h) && RecordAt(t, h) == RecordAt(s, h))
  {
  }

  lemma FilesFails(s: State, h: int)
    requires Control(s) && FilesAt(s, h) && s.session.Session?
    ensures Bounded(DoFollowerFails(s)) && FilesAt(DoFollowerFails(s), h)
  {
    var t, x := DoFollowerFails(s), At(s.slots, h);
    StopBooks(s, h);
    StopArgs(s, h);
    if s.op.Sealing() {
      FilesSame(s, t, h);
    } else {
      Abandons(x, StageAt(s, h), RecordAt(s, h), Owed(s, s.hi, h), Ceiling(s, h), s.sealBroken);
      FallsIdle(s, t, h, x);
    }
  }

  /** The files of one hour after a crash. */
  function Survivor(s: State, parts: map<int, Option<Bytes>>, gzs: map<int, seq<Bytes>>, h: int): Slot
    requires parts.Keys == s.slots.Keys && gzs.Keys == s.slots.Keys
  {
    var p, g := if h in s.slots then parts[h] else None, if h in s.slots then gzs[h] else [];
    Slot(View(p, {p}), View(g, {g}))
  }

  lemma CrashArgs(s: State, parts: map<int, Option<Bytes>>, gzs: map<int, seq<Bytes>>, mark: Mark, h: int)
    requires Control(s) && Enabled(s, Crash(parts, gzs, mark))
    ensures var t, y := DoCrash(s, parts, gzs, mark), Survivor(s, parts, gzs, h);
            && Bounded(s) && Bounded(t) && BooksKept(s, t, h) && At(t.slots, h) == y
            && y.part.live in At(s.slots, h).part.images && y.gz.live in At(s.slots, h).gz.images
            && t.op == Idle && (s.sealBroken || StageAt(s, h).PastReplace() ==> t.sealBroken)
  {
    BooksStop(s, DoCrash(s, parts, gzs, mark), h);
  }

  lemma FilesCrash(s: State, t: State, p: Option<Bytes>, g: seq<Bytes>, h: int)
    requires Bounded(s) && Bounded(t) && FilesAt(s, h) && BooksKept(s, t, h)
    requires p in At(s.slots, h).part.images && g in At(s.slots, h).gz.images
    requires t.op == Idle && At(t.slots, h) == Slot(View(p, {p}), View(g, {g}))
    requires s.sealBroken || StageAt(s, h).PastReplace() ==> t.sealBroken
    ensures FilesAt(t, h)
  {
    Crashes(At(s.slots, h), StageAt(s, h), RecordAt(s, h), Owed(s, s.hi, h), Ceiling(s, h), s.sealBroken, p, g);
    FallsIdle(s, t, h, Slot(View(p, {p}), View(g, {g})));
  }

  // ---- every step keeps the invariant

  /** Steps that touch no file and start or end no file operation. */
  lemma KeepsFiles(s: State, t: State, h: int)
    requires Bounded(s) && Bounded(t) && FilesAt(s, h) && BooksKept(s, t, h)
    requires t.slots == s.slots && t.sealBroken == s.sealBroken
    requires !Appending(s.op) && !Appending(t.op) && (t.op == s.op || (!s.op.Sealing() && !t.op.Sealing()))
    ensures FilesAt(t, h)
  {
    FilesSame(s, t, h);
  }

  lemma KeepSkip(s: State)
    requires Inv(s) && Enabled(s, SkipLine)
    ensures Inv(DoSkipLine(s))
  {
    ControlSkip(s);
    forall h ensures FilesAt(DoSkipLine(s), h) {
      assert FilesAt(s, h);
      KeepsFiles(s, DoSkipLine(s), h);
    }
  }

  lemma KeepDrop(s: State)
    requires Inv(s) && Enabled(s, DropLine)
    ensures Inv(DoDropLine(s))
  {
    ControlDrop(s);
    DueIsNext(s);
    forall h ensures FilesAt(DoDropLine(s), h) {
      assert FilesAt(s, h);
      BooksDrop(s, h);
      KeepsFiles(s, DoDropLine(s), h);
    }
  }

  lemma KeepOpenSession(s: State, start: nat)
    requires Inv(s) && Enabled(s, OpenSession(start))
    ensures Inv(DoOpenSession(s, start))
  {
    ControlOpen(s, start);
    forall h ensures FilesAt(DoOpenSession(s, start), h) {
      assert FilesAt(s, h);
      KeepsFiles(s, DoOpenSession(s, start), h);
    }
  }

  lemma KeepContainer(s: State, id: nat, log: seq<Entry>)
    requires Inv(s) && Enabled(s, NewContainer(id, log))
    ensures Inv(DoNewContainer(s, id, log))
  {
    ControlContainer(s, id, log);
    forall h ensures FilesAt(DoNewContainer(s, id, log), h) {
      assert FilesAt(s, h);
      BooksContainer(s, id, log, h);
      KeepsFiles(s, DoNewContainer(s, id, log), h);
    }
  }

  lemma FilesCursorReplace(s: State, h: int)
    requires Bounded(s) && AtEntry(s, Landed) && s.op == Idle && FilesAt(s, h)
    ensures FilesAt(DoCursorReplace(s), h)
  {
    BooksFrame(s, DoCursorReplace(s), h);
    KeepsFiles(s, DoCursorReplace(s), h);
  }

  lemma KeepCursorReplace(s: State)
    requires Inv(s) && Enabled(s, CursorReplace)
    ensures Inv(DoCursorReplace(s))
  {
    ControlCursorReplace(s);
    forall h ensures FilesAt(DoCursorReplace(s), h) {
      assert FilesAt(s, h);
      FilesCursorReplace(s, h);
    }
  }

  lemma FilesCursorSync(s: State, h: int)
    requires Bounded(s) && AtEntry(s, Landed) && s.op.CursorReplaced? && s.lo <= s.session.next && FilesAt(s, h)
    ensures FilesAt(DoCursorSync(s), h)
  {
    BooksCursorSync(s, h);
    KeepsFiles(s, DoCursorSync(s), h);
  }

  lemma KeepCursorSync(s: State)
    requires Inv(s) && Enabled(s, CursorSync)
    ensures Inv(DoCursorSync(s))
  {
    ControlCursorSync(s);
    forall h ensures FilesAt(DoCursorSync(s), h) {
      assert FilesAt(s, h);
      FilesCursorSync(s, h);
    }
  }

  /** An append leaves every other hour alone. */
  lemma KeepsElsewhere(s: State, t: State, e: Entry, h: int)
    requires Bounded(s) && Bounded(t) && FilesAt(s, h) && BooksKept(s, t, h) && h != HourOf(e)
    requires At(t.slots, h) == At(s.slots, h) && t.sealBroken == s.sealBroken
    requires !s.op.Sealing() && !t.op.Sealing()
    requires AtEntry(s, Storing) ==> Current(s) == e
    requires AtEntry(t, Storing) ==> Current(t) == e
    ensures FilesAt(t, h)
  {
    assert StageAt(s, h) == Idle && StageAt(t, h) == Idle;
    assert RecordAt(s, h) == [] && RecordAt(t, h) == [];
    FilesSame(s, t, h);
  }

  lemma ElsewhereAppendOpen(s: State, h: int)
    requires Bounded(s) && AtEntry(s, Reading) && s.op == Idle && Current(s).text.Some?
    requires FilesAt(s, h) && h != HourOf(Current(s))
    ensures FilesAt(DoAppendOpen(s), h)
  {
    BooksAppend(s, h);
    KeepsElsewhere(s, DoAppendOpen(s), Current(s), h);
  }

  lemma BooksLandElsewhere(s: State, h: int)
    requires Bounded(s) && AtEntry(s, Storing) && s.hi == s.session.next && h != HourOf(Current(s))
    ensures BooksKept(s, DoAppendSyncDir(s), h)
  {
    BooksLand(s, h);
    assert FiledOne(Current(s), h) == multiset{};
  }

  lemma ElsewhereAppendSyncDir(s: State, h: int)
    requires Bounded(s) && AtEntry(s, Storing) && Appending(s.op) && s.hi == s.session.next
    requires FilesAt(s, h) && h != HourOf(Current(s))
    ensures FilesAt(DoAppendSyncDir(s), h)
  {
    BooksLandElsewhere(s, h);
    KeepsElsewhere(s, DoAppendSyncDir(s), Current(s), h);
  }

  lemma KeepAppendOpen(s: State)
    requires Inv(s) && Enabled(s, AppendOpen)
    ensures Inv(DoAppendOpen(s))
  {
    ControlAppendOpen(s);
    forall h ensures FilesAt(DoAppendOpen(s), h) {
      assert FilesAt(s, h);
      if h == HourOf(Current(s)) {
        FilesAppendOpen(s, h);
      } else {
        ElsewhereAppendOpen(s, h);
      }
    }
  }

  lemma KeepAppendRepair(s: State)
    requires Inv(s) && Enabled(s, AppendRepair)
    ensures Inv(DoAppendRepair(s))
  {
    ControlStage(s, DoAppendRepair(s));
    forall h ensures FilesAt(DoAppendRepair(s), h) {
      assert FilesAt(s, h);
      if h == HourOf(Current(s)) {
        FilesRepair(s, h);
      } else {
        BooksFrame(s, DoAppendRepair(s), h);
        KeepsElsewhere(s, DoAppendRepair(s), Current(s), h);
      }
    }
  }

  lemma KeepAppendWrite(s: State, k: nat)
    requires Inv(s) && Enabled(s, AppendWrite(k))
    ensures Inv(DoAppendWrite(s, k))
  {
    ControlStage(s, DoAppendWrite(s, k));
    forall h ensures FilesAt(DoAppendWrite(s, k), h) {
      assert FilesAt(s, h);
      if h == HourOf(Current(s)) {
        FilesWrite(s, k, h);
      } else {
        BooksFrame(s, DoAppendWrite(s, k), h);
        KeepsElsewhere(s, DoAppendWrite(s, k), Current(s), h);
      }
    }
  }

  lemma KeepAppendSync(s: State)
    requires Inv(s) && Enabled(s, AppendSync)
    ensures Inv(DoAppendSync(s))
  {
    ControlStage(s, DoAppendSync(s));
    forall h ensures FilesAt(DoAppendSync(s), h) {
      assert FilesAt(s, h);
      if h == HourOf(Current(s)) {
        FilesSync(s, h);
      } else {
        BooksFrame(s, DoAppendSync(s), h);
        KeepsElsewhere(s, DoAppendSync(s), Current(s), h);
      }
    }
  }

  lemma KeepAppendSyncDir(s: State)
    requires Inv(s) && Enabled(s, AppendSyncDir)
    ensures Inv(DoAppendSyncDir(s))
  {
    ControlLand(s);
    forall h ensures FilesAt(DoAppendSyncDir(s), h) {
      assert FilesAt(s, h);
      if h == HourOf(Current(s)) {
        FilesLand(s, h);
      } else {
        ElsewhereAppendSyncDir(s, h);
      }
    }
  }

  lemma SealerFiles(s: State, t: State, h: int)
    requires Bounded(s) && SealerAt(s.op, h) && SealerAt(t.op, h) && (forall k :: FilesAt(s, k))
    requires t == s.(slots := s.slots[h := At(t.slots, h)], op := t.op, sealBroken := t.sealBroken)
    requires (s.sealBroken ==> t.sealBroken) && FilesAt(t, h)
    ensures forall k :: FilesAt(t, k)
  {
    forall k ensures FilesAt(t, k) {
      if k != h {
        assert FilesAt(s, k);
        SealerElsewhere(s, t, h, k);
      }
    }
  }

  lemma KeepSealRepair(s: State, h: int)
    requires Inv(s) && Enabled(s, SealRepair(h))
    ensures Inv(DoSealRepair(s, h))
  {
    ControlSeal(s, DoSealRepair(s, h));
    assert FilesAt(s, h);
    FilesSealStart(s, h);
    SealerFiles(s, DoSealRepair(s, h), h);
  }

  lemma KeepSealPartSync(s: State)
    requires Inv(s) && s.op.SealRepaired?
    ensures Inv(DoSealPartSync(s))
  {
    ControlSeal(s, DoSealPartSync(s));
    assert FilesAt(s, s.op.hour);
    FilesSealPartSync(s);
    SealerFiles(s, DoSealPartSync(s), s.op.hour);
  }

  lemma KeepSealReplace(s: State)
    requires Inv(s) && s.op.SealPartSynced?
    ensures Inv(DoSealReplace(s))
  {
    ControlSeal(s, DoSealReplace(s));
    assert FilesAt(s, s.op.hour);
    FilesSealReplace(s);
    SealerFiles(s, DoSealReplace(s), s.op.hour);
  }

  lemma KeepSealArchiveSync(s: State)
    requires Inv(s) && s.op.SealReplaced?
    ensures Inv(DoSealArchiveSync(s))
  {
    ControlSeal(s, DoSealArchiveSync(s));
    assert FilesAt(s, s.op.hour);
    FilesSealArchiveSync(s);
    SealerFiles(s, DoSealArchiveSync(s), s.op.hour);
  }

  lemma KeepSealUnlink(s: State)
    requires Inv(s) && s.op.SealArchiveSynced?
    ensures Inv(DoSealUnlink(s))
  {
    ControlSeal(s, DoSealUnlink(s));
    assert FilesAt(s, s.op.hour);
    FilesSealUnlink(s);
    SealerFiles(s, DoSealUnlink(s), s.op.hour);
  }

  lemma KeepSealDone(s: State)
    requires Inv(s) && s.op.SealUnlinked?
    ensures Inv(DoSealDone(s))
  {
    ControlSeal(s, DoSealDone(s));
    assert FilesAt(s, s.op.hour);
    FilesSealDone(s);
    SealerFiles(s, DoSealDone(s), s.op.hour);
  }

  lemma KeepSealFails(s: State)
    requires Inv(s) && s.op.Sealing()
    ensures Inv(DoSealFails(s))
  {
    ControlSeal(s, DoSealFails(s));
    forall k ensures FilesAt(DoSealFails(s), k) {
      assert FilesAt(s, k);
      if k == s.op.hour {
        FilesSealFails(s);
      } else {
        SealerElsewhere(s, DoSealFails(s), s.op.hour, k);
      }
    }
  }

  lemma KeepFails(s: State)
    requires Inv(s) && s.session.Session?
    ensures Inv(DoFollowerFails(s))
  {
    ControlFails(s);
    forall h ensures FilesAt(DoFollowerFails(s), h) {
      assert FilesAt(s, h);
      FilesFails(s, h);
    }
  }

  lemma KeepCrash(s: State, parts: map<int, Option<Bytes>>, gzs: map<int, seq<Bytes>>, mark: Mark)
    requires Inv(s) && Enabled(s, Crash(parts, gzs, mark))
    ensures Inv(DoCrash(s, parts, gzs, mark))
  {
    var t := DoCrash(s, parts, gzs, mark);
    ControlCrash(s, parts, gzs, mark);
    forall h ensures FilesAt(t, h) {
      assert FilesAt(s, h);
      CrashArgs(s, parts, gzs, mark, h);
      FilesCrash(s, t, Survivor(s, parts, gzs, h).part.live, Survivor(s, parts, gzs, h).gz.live, h);
    }
  }

  /** The invariant is inductive. */
  lemma EveryStepKeeps(s: State, step: Step)
    requires Inv(s) && Enabled(s, step)
    ensures Inv(Do(s, step))
  {
    match step
    case NewContainer(id, log) => KeepContainer(s, id, log);
    case OpenSession(start) => KeepOpenSession(s, start);
    case SkipLine => KeepSkip(s);
    case DropLine => KeepDrop(s);
    case AppendOpen => KeepAppendOpen(s);
    case AppendRepair => KeepAppendRepair(s);
    case AppendWrite(k) => KeepAppendWrite(s, k);
    case AppendSync => KeepAppendSync(s);
    case AppendSyncDir => KeepAppendSyncDir(s);
    case CursorReplace => KeepCursorReplace(s);
    case CursorSync => KeepCursorSync(s);
    case SealRepair(h) => KeepSealRepair(s, h);
    case SealPartSync => KeepSealPartSync(s);
    case SealReplace => KeepSealReplace(s);
    case SealArchiveSync => KeepSealArchiveSync(s);
    case SealUnlink => KeepSealUnlink(s);
    case SealDone => KeepSealDone(s);
    case SealFails => KeepSealFails(s);
    case FollowerFails => KeepFails(s);
    case Crash(parts, gzs, mark) => KeepCrash(s, parts, gzs, mark);
  }

  lemma InitHolds(s: State)
    requires Init(s)
    ensures Inv(s)
  {
    forall h ensures FilesAt(s, h) {
      assert s.log[..0] == [];
      assert At(s.slots, h) == EmptySlot;
      assert Stored(None, []) == [];
    }
  }

  lemma {:induction false} RunsKeep(s: State, steps: seq<Step>)
    requires Inv(s) && Runs(s, steps)
    ensures Inv(After(s, steps))
    decreases |steps|
  {
    if steps != [] {
      EveryStepKeeps(s, steps[0]);
      RunsKeep(Do(s, steps[0]), steps[1..]);
    }
  }

  // ---- the guarantees

  /** A disk image a crash may leave of hour `h`. */
  predicate Survives(s: State, h: int, p: Option<Bytes>, g: seq<Bytes>) {
    p in At(s.slots, h).part.images && g in At(s.slots, h).gz.images
  }

  lemma ImageBounds(t: State, h: int, p: Option<Bytes>, g: seq<Bytes>)
    requires Bounded(t) && FilesAt(t, h) && Survives(t, h, p, g)
    ensures Owed(t, t.hi, h) <= multiset(Stored(p, g))
    ensures !t.sealBroken && !(t.op.PastReplace() && t.op.hour == h) ==> multiset(Stored(p, g)) <= Ceiling(t, h)
  {
  }

  lemma MarkBounds(t: State, m: Mark, h: int)
    requires Control(t) && m in t.cursor.images
    ensures MarkOk(m, t.id, t.log) && m.acked <= |t.log|
    ensures Owed(t, m.acked, h) <= Owed(t, t.hi, h)
    ensures Ceiling(t, h) <= Owed(t, m.acked, h) + Filed(t.extras, h) + Filed(InFlight(t), h)
  {
    OwedGrows(t, m.acked, t.hi, h);
    OwedGrows(t, t.lo, m.acked, h);
  }

  lemma ReachableIsSafe(s: State, steps: seq<Step>)
    requires Init(s) && Runs(s, steps)
    ensures Inv(After(s, steps))
  {
    InitHolds(s);
    RunsKeep(s, steps);
  }

  /** No loss: whatever cursor and whatever files a crash leaves now, every line the cursor
      acknowledges is a whole record of its hour, counted with multiplicity, along with every
      line acknowledged for earlier containers. */
  lemma NoAcknowledgedLineIsLost(s: State, steps: seq<Step>, m: Mark, h: int, p: Option<Bytes>, g: seq<Bytes>)
    requires Init(s) && Runs(s, steps)
    requires var t := After(s, steps); m in t.cursor.images && Survives(t, h, p, g)
    ensures var t := After(s, steps);
            && MarkOk(m, t.id, t.log) && m.acked <= |t.log|
            && Filed(t.base, h) + Filed(t.log[..m.acked], h) <= multiset(Stored(p, g))
  {
    ReachableIsSafe(s, steps);
    var t := After(s, steps);
    assert FilesAt(t, h);
    MarkBounds(t, m, h);
    ImageBounds(t, h, p, g);
  }

  /** Duplicates: as long as no seal was interrupted after its replacement, nothing is stored
      beyond the acknowledged lines, the record in flight and one copy per interruption. */
  lemma DuplicatesAreInterruptions(s: State, steps: seq<Step>, m: Mark, h: int, p: Option<Bytes>, g: seq<Bytes>)
    requires Init(s) && Runs(s, steps)
    requires var t := After(s, steps); m in t.cursor.images && Survives(t, h, p, g)
    requires var t := After(s, steps); !t.sealBroken && !(t.op.PastReplace() && t.op.hour == h)
    ensures var t := After(s, steps);
            && m.acked <= |t.log| && |t.extras| <= t.interruptions && |InFlight(t)| <= 1
            && multiset(Stored(p, g)) <=
               Filed(t.base, h) + Filed(t.log[..m.acked], h) + Filed(t.extras, h) + Filed(InFlight(t), h)
  {
    ReachableIsSafe(s, steps);
    var t := After(s, steps);
    assert FilesAt(t, h);
    MarkBounds(t, m, h);
    ImageBounds(t, h, p, g);
  }
}
