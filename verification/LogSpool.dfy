/** The crash-consistent hourly spool: a follower that appends and then checkpoints, a sealer
    that compresses hour files by atomic replacement, and crashes between any two disk steps.

    Every file is a `View`: what a running process reads, and every image a crash at this
    moment may leave.  Store operations hold one lock, so at most one is in progress. */
module LogSpool {
  import opened LogText
  import opened Prelude

  const HOUR_NS := 3_600_000_000_000

  /** One stamped container line; `text` is the record kept by the whitelist, if any. */
  datatype Entry = Entry(ns: nat, text: Option<Bytes>)

  function HourOf(e: Entry): int {
    e.ns / HOUR_NS
  }

  /** An entry's hour is the one its stamp lies in: 3600 seconds of nanoseconds, the start included. */
  lemma HourHoldsStamp(e: Entry, h: int)
    ensures HourOf(e) == h <==> h * 3_600_000_000_000 <= e.ns < (h + 1) * 3_600_000_000_000
  {
  }

  datatype View<T(==)> = View(live: T, images: set<T>) {
    /** An unsynced change: a crash may still leave any older image or a torn one. */
    function Write(now: T, torn: set<T>): View<T> {
      View(now, images + torn + {now})
    }

    function Sync(): View<T> {
      View(live, {live})
    }
  }

  /** `part` is the open hour file, `gz` the decompressed members of the archive. */
  datatype Slot = Slot(part: View<Option<Bytes>>, gz: View<seq<Bytes>>)

  const EmptySlot := Slot(View(None, {None}), View([], {[]}))

  datatype Cursor = Cursor(id: nat, ns: nat, count: nat)

  /** A cursor file and the number of entries of the current log that it acknowledges. */
  datatype Mark = Mark(file: Option<Cursor>, acked: nat)

  datatype Phase = Reading | Storing | Landed

  datatype Session =
    | NoSession
    | Session(since: nat, ack: nat, from: nat, next: nat, seen: nat, latest: nat, count: nat, phase: Phase)

  datatype Op =
    | Idle
    | AppendOpened
    | AppendRepaired(w: Bytes)
    | AppendWritten(w: Bytes, k: nat)
    | AppendSynced(w: Bytes)
    | CursorReplaced
    | SealRepaired(hour: int, w: Bytes)
    | SealPartSynced(hour: int, w: Bytes)
    | SealReplaced(hour: int)
    | SealArchiveSynced(hour: int)
    | SealUnlinked(hour: int)
  {
    predicate Sealing() {
      SealRepaired? || SealPartSynced? || PastReplace()
    }
    predicate PastReplace() {
      SealReplaced? || SealArchiveSynced? || SealUnlinked?
    }
  }

  /** `base` are the entries acknowledged for earlier containers, `lo` and `hi` bound what any
      surviving cursor acknowledges of the current one, and `extras` are the entries that were
      in flight when a follower was interrupted. */
  datatype State = State(
    id: nat, log: seq<Entry>, slots: map<int, Slot>, cursor: View<Mark>, session: Session, op: Op,
    base: seq<Entry>, extras: seq<Entry>, lo: nat, hi: nat,
    interruptions: nat, sealBroken: bool)

  function At(slots: map<int, Slot>, h: int): Slot {
    if h in slots then slots[h] else EmptySlot
  }

  // ---- what a file holds and what is owed

  function PartBytes(p: Option<Bytes>): Bytes {
    if p.Some? then p.value else []
  }

  /** The records of the decompressed archive followed by the open file. */
  function Stored(p: Option<Bytes>, g: seq<Bytes>): seq<Bytes> {
    Records(Flatten(g) + PartBytes(p))
  }

  function FiledOne(e: Entry, h: int): multiset<Bytes> {
    if e.text.Some? && HourOf(e) == h then multiset{e.text.value} else multiset{}
  }

  /** The whitelisted lines of hour `h` among `es`. */
  function Filed(es: seq<Entry>, h: int): multiset<Bytes> {
    if es == [] then multiset{} else Filed(es[..|es| - 1], h) + FiledOne(es[|es| - 1], h)
  }

  /** The lines of hour `h` owed once `n` entries of the current log are acknowledged. */
  function Owed(s: State, n: nat, h: int): multiset<Bytes>
    requires n <= |s.log|
  {
    Filed(s.base, h) + Filed(s.log[..n], h)
  }

  function InFlight(s: State): seq<Entry> {
    if s.session.Session? && !s.session.phase.Reading? && s.session.next < |s.log|
    then [s.log[s.session.next]] else []
  }

  ghost predicate SlotHolds(x: Slot, m: multiset<Bytes>) {
    forall p, g :: p in x.part.images && g in x.gz.images ==> m <= multiset(Stored(p, g))
  }

  ghost predicate SlotWithin(x: Slot, m: multiset<Bytes>) {
    forall p, g :: p in x.part.images && g in x.gz.images ==> multiset(Stored(p, g)) <= m
  }

  // ---- the cursor

  function CountAt(log: seq<Entry>, n: nat, ns: nat): nat
    requires n <= |log|
  {
    if n == 0 then 0 else CountAt(log, n - 1, ns) + (if log[n - 1].ns == ns then 1 else 0)
  }

  predicate LogOk(log: seq<Entry>) {
    && (forall i, j :: 0 <= i < j < |log| ==> log[i].ns <= log[j].ns)
    && (forall i :: 0 <= i < |log| && log[i].text.Some? ==> IsRecord(log[i].text.value))
  }

  predicate MarkOk(m: Mark, id: nat, log: seq<Entry>) {
    if m.file.None? || m.file.value.id != id then m.acked == 0
    else
      && 0 < m.acked <= |log|
      && m.file.value.ns == log[m.acked - 1].ns
      && m.file.value.count == CountAt(log, m.acked, m.file.value.ns)
  }

  /** The follower's reading of the cursor file: a new container starts at zero. */
  function Since(m: Mark, id: nat): nat {
    if m.file.None? || m.file.value.id != id then 0 else m.file.value.ns
  }

  function Acknowledged(m: Mark, id: nat): nat {
    if m.file.None? || m.file.value.id != id then 0 else m.file.value.count
  }

  /** `follow_once`: skip what the durable cursor already covers. */
  predicate Skips(ns: nat, since: nat, ack: nat, seen: nat) {
    ns < since || (ns == since && seen + 1 <= ack)
  }

  function SeenAfter(ns: nat, since: nat, seen: nat): nat {
    if ns == since then seen + 1 else seen
  }

  function Advance(ns: nat, latest: nat, count: nat): (nat, nat) {
    if ns > latest then (ns, 1) else if ns == latest then (latest, count + 1) else (latest, count)
  }

  // ---- steps

  datatype Step =
    | NewContainer(id: nat, log: seq<Entry>)
    | OpenSession(start: nat)
    | SkipLine
    | DropLine
    | AppendOpen
    | AppendRepair
    | AppendWrite(k: nat)
    | AppendSync
    | AppendSyncDir
    | CursorReplace
    | CursorSync
    | SealRepair(hour: int)
    | SealPartSync
    | SealReplace
    | SealArchiveSync
    | SealUnlink
    | SealDone
    | SealFails
    | FollowerFails
    | Crash(parts: map<int, Option<Bytes>>, gzs: map<int, seq<Bytes>>, mark: Mark)

  predicate AtEntry(s: State, phase: Phase) {
    s.session.Session? && s.session.phase == phase && s.session.next < |s.log|
  }

  function Current(s: State): Entry
    requires s.session.Session? && s.session.next < |s.log|
  {
    s.log[s.session.next]
  }

  predicate Due(s: State)
    requires AtEntry(s, Reading)
  {
    !Skips(Current(s).ns, s.session.since, s.session.ack, s.session.seen)
  }

  predicate Enabled(s: State, step: Step) {
    match step
    case NewContainer(id, log) =>
      && s.op == Idle && s.session == NoSession && LogOk(log) && id != s.id
      && (forall m :: m in s.cursor.images && m.file.Some? ==> m.file.value.id != id)
    case OpenSession(start) =>
      // Docker replays at least everything from the boundary stamp on.
      && s.op == Idle && s.session == NoSession && start <= |s.log|
      && (forall i :: 0 <= i < start ==> s.log[i].ns < Since(s.cursor.live, s.id))
    case SkipLine => AtEntry(s, Reading) && !Due(s)
    case DropLine => AtEntry(s, Reading) && Due(s) && Current(s).text.None?
    case AppendOpen => s.op == Idle && AtEntry(s, Reading) && Due(s) && Current(s).text.Some?
    case AppendRepair => s.op.AppendOpened? && AtEntry(s, Storing)
    case AppendWrite(k) =>
      s.op.AppendRepaired? && AtEntry(s, Storing) && Current(s).text.Some? && k <= |Current(s).text.value|
    case AppendSync =>
      s.op.AppendWritten? && AtEntry(s, Storing) && Current(s).text.Some? && s.op.k == |Current(s).text.value|
    case AppendSyncDir => s.op.AppendSynced? && AtEntry(s, Storing)
    case CursorReplace => s.op == Idle && AtEntry(s, Landed)
    case CursorSync => s.op.CursorReplaced? && AtEntry(s, Landed)
    case SealRepair(h) => s.op == Idle && At(s.slots, h).part.live.Some?
    case SealPartSync => s.op.SealRepaired?
    case SealReplace => s.op.SealPartSynced?
    case SealArchiveSync => s.op.SealReplaced?
    case SealUnlink => s.op.SealArchiveSynced?
    case SealDone => s.op.SealUnlinked?
    case SealFails => s.op.Sealing()
    case FollowerFails => s.session.Session?
    case Crash(parts, gzs, mark) =>
      && parts.Keys == s.slots.Keys && gzs.Keys == s.slots.Keys && mark in s.cursor.images
      && (forall h :: h in s.slots ==> parts[h] in s.slots[h].part.images && gzs[h] in s.slots[h].gz.images)
  }

  function WithPart(s: State, h: int, part: View<Option<Bytes>>): map<int, Slot> {
    s.slots[h := At(s.slots, h).(part := part)]
  }

  function Torn(w: Bytes, r: Bytes, k: nat): set<Option<Bytes>>
    requires k <= |r|
  {
    set j | 0 <= j <= k :: Some(w + r[..j])
  }

  /** The follower dies: its in-flight record may be stored once more than acknowledged. */
  function Interrupted(s: State): State {
    s.(session := NoSession,
       extras := s.extras + InFlight(s),
       hi := s.cursor.live.acked,
       interruptions := s.interruptions + (if s.session.Session? && !s.session.phase.Reading? then 1 else 0))
  }

  function DoNewContainer(s: State, id: nat, log: seq<Entry>): State {
    s.(id := id, log := log,
       base := s.base + (if s.hi <= |s.log| then s.log[..s.hi] else []),
       cursor := View(Mark(s.cursor.live.file, 0), set m | m in s.cursor.images :: Mark(m.file, 0)),
       lo := 0, hi := 0)
  }

  function DoOpenSession(s: State, start: nat): State {
    var since, ack := Since(s.cursor.live, s.id), Acknowledged(s.cursor.live, s.id);
    s.(session := Session(since, ack, s.cursor.live.acked, start, 0, since, ack, Reading))
  }

  /** The follower counts the line it looks at and moves to `phase`. */
  function Look(s: State, phase: Phase, next: nat): Session
    requires AtEntry(s, Reading)
  {
    s.session.(phase := phase, next := next, seen := SeenAfter(Current(s).ns, s.session.since, s.session.seen))
  }

  function DoSkipLine(s: State): State
    requires AtEntry(s, Reading)
  {
    s.(session := Look(s, Reading, s.session.next + 1))
  }

  function DoDropLine(s: State): State
    requires AtEntry(s, Reading)
  {
    s.(session := Look(s, Landed, s.session.next), hi := s.session.next + 1)
  }

  function DoAppendOpen(s: State): State
    requires AtEntry(s, Reading)
  {
    var h := HourOf(Current(s));
    var part := At(s.slots, h).part;
    s.(session := Look(s, Storing, s.session.next),
       slots := WithPart(s, h, if part.live.Some? then part else part.Write(Some([]), {})),
       op := AppendOpened)
  }

  function DoAppendRepair(s: State): State
    requires AtEntry(s, Storing)
  {
    var h := HourOf(Current(s));
    var part := At(s.slots, h).part;
    var w := WholePrefix(PartBytes(part.live));
    s.(slots := WithPart(s, h, part.Write(Some(w), {})), op := AppendRepaired(w))
  }

  function DoAppendWrite(s: State, k: nat): State
    requires AtEntry(s, Storing) && s.op.AppendRepaired?
    requires Current(s).text.Some? && k <= |Current(s).text.value|
  {
    var h, w, r := HourOf(Current(s)), s.op.w, Current(s).text.value;
    s.(slots := WithPart(s, h, At(s.slots, h).part.Write(Some(w + r[..k]), Torn(w, r, k))),
       op := AppendWritten(w, k))
  }

  /** File content is durable; a file just created may still lack its directory entry. */
  function SyncedPart(part: View<Option<Bytes>>): View<Option<Bytes>> {
    View(part.live, {part.live} + part.images * {None})
  }

  function DoAppendSync(s: State): State
    requires AtEntry(s, Storing) && s.op.AppendWritten?
  {
    var h := HourOf(Current(s));
    s.(slots := WithPart(s, h, SyncedPart(At(s.slots, h).part)), op := AppendSynced(s.op.w))
  }

  function DoAppendSyncDir(s: State): State
    requires AtEntry(s, Storing)
  {
    var h := HourOf(Current(s));
    s.(slots := WithPart(s, h, At(s.slots, h).part.Sync()), op := Idle,
       session := s.session.(phase := Landed), hi := s.session.next + 1)
  }

  function DoCursorReplace(s: State): State
    requires AtEntry(s, Landed)
  {
    var f := s.session;
    var (latest, count) := Advance(Current(s).ns, f.latest, f.count);
    s.(cursor := s.cursor.Write(Mark(Some(Cursor(s.id, latest, count)), f.next + 1), {}),
       op := CursorReplaced)
  }

  function DoCursorSync(s: State): State
    requires AtEntry(s, Landed)
  {
    var f := s.session;
    var (latest, count) := Advance(Current(s).ns, f.latest, f.count);
    s.(cursor := s.cursor.Sync(), op := Idle, lo := f.next + 1,
       session := f.(next := f.next + 1, latest := latest, count := count, phase := Reading))
  }

  function DoSealRepair(s: State, h: int): State {
    var part := At(s.slots, h).part;
    var w := WholePrefix(PartBytes(part.live));
    s.(slots := WithPart(s, h, part.Write(Some(w), {})), op := SealRepaired(h, w))
  }

  function DoSealPartSync(s: State): State
    requires s.op.SealRepaired?
  {
    var h := s.op.hour;
    s.(slots := WithPart(s, h, SyncedPart(At(s.slots, h).part)), op := SealPartSynced(h, s.op.w))
  }

  function DoSealReplace(s: State): State
    requires s.op.SealPartSynced?
  {
    var h := s.op.hour;
    var x := At(s.slots, h);
    s.(slots := s.slots[h := x.(gz := x.gz.Write(x.gz.live + [s.op.w], {}))], op := SealReplaced(h))
  }

  function DoSealArchiveSync(s: State): State
    requires s.op.SealReplaced?
  {
    var h := s.op.hour;
    var x := At(s.slots, h);
    s.(slots := s.slots[h := Slot(x.part.Sync(), x.gz.Sync())], op := SealArchiveSynced(h))
  }

  function DoSealUnlink(s: State): State
    requires s.op.SealArchiveSynced?
  {
    var h := s.op.hour;
    s.(slots := WithPart(s, h, At(s.slots, h).part.Write(None, {})), op := SealUnlinked(h))
  }

  function DoSealDone(s: State): State
    requires s.op.SealUnlinked?
  {
    var h := s.op.hour;
    s.(slots := WithPart(s, h, At(s.slots, h).part.Sync()), op := Idle)
  }

  function DoSealFails(s: State): State {
    s.(op := Idle, sealBroken := s.sealBroken || s.op.PastReplace())
  }

  function DoFollowerFails(s: State): State {
    Interrupted(s).(op := if s.op.Sealing() then s.op else Idle)
  }

  function DoCrash(s: State, parts: map<int, Option<Bytes>>, gzs: map<int, seq<Bytes>>, mark: Mark): State
    requires parts.Keys == s.slots.Keys && gzs.Keys == s.slots.Keys
  {
    Interrupted(s).(
    op := Idle,
    slots := map h | h in s.slots :: Slot(View(parts[h], {parts[h]}), View(gzs[h], {gzs[h]})),
    cursor := View(mark, {mark}), lo := mark.acked, hi := mark.acked,
    sealBroken := s.sealBroken || s.op.PastReplace())
  }

  function Do(s: State, step: Step): State
    requires Enabled(s, step)
  {
    match step
    case NewContainer(id, log) => DoNewContainer(s, id, log)
    case OpenSession(start) => DoOpenSession(s, start)
    case SkipLine => DoSkipLine(s)
    case DropLine => DoDropLine(s)
    case AppendOpen => DoAppendOpen(s)
    case AppendRepair => DoAppendRepair(s)
    case AppendWrite(k) => DoAppendWrite(s, k)
    case AppendSync => DoAppendSync(s)
    case AppendSyncDir => DoAppendSyncDir(s)
    case CursorReplace => DoCursorReplace(s)
    case CursorSync => DoCursorSync(s)
    case SealRepair(h) => DoSealRepair(s, h)
    case SealPartSync => DoSealPartSync(s)
    case SealReplace => DoSealReplace(s)
    case SealArchiveSync => DoSealArchiveSync(s)
    case SealUnlink => DoSealUnlink(s)
    case SealDone => DoSealDone(s)
    case SealFails => DoSealFails(s)
    case FollowerFails => DoFollowerFails(s)
    case Crash(parts, gzs, mark) => DoCrash(s, parts, gzs, mark)
  }

  /** An empty spool and the first container's log. */
  predicate Init(s: State) {
    && LogOk(s.log) && s.slots == map[] && s.cursor == View(Mark(None, 0), {Mark(None, 0)})
    && s.session == NoSession && s.op == Idle && s.base == [] && s.extras == []
    && s.lo == 0 && s.hi == 0 && s.interruptions == 0 && !s.sealBroken
  }

  predicate Runs(s: State, steps: seq<Step>)
    decreases |steps|
  {
    steps == [] || (Enabled(s, steps[0]) && Runs(Do(s, steps[0]), steps[1..]))
  }

  function After(s: State, steps: seq<Step>): State
    requires Runs(s, steps)
    decreases |steps|
  {
    if steps == [] then s else After(Do(s, steps[0]), steps[1..])
  }
}
