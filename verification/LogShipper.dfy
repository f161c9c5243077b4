/** The store and follower as they run between crashes, and their agreement with the steps of
    the crash machine. */
module LogShipper {
  import opened LogText
  import opened Prelude
  import opened LogSpool
  import opened LogSpoolSafety
  import Files = LogSpoolFiles

  datatype HourFiles = HourFiles(part: Option<Bytes>, gz: seq<Bytes>)

  function FilesOf(files: map<int, HourFiles>, h: int): HourFiles {
    if h in files then files[h] else HourFiles(None, [])
  }

  function StoredAt(files: map<int, HourFiles>, h: int): seq<Bytes> {
    Stored(FilesOf(files, h).part, FilesOf(files, h).gz)
  }

  /** The whitelisted lines of hour `h`, in log order. */
  function Texts(es: seq<Entry>, h: int): seq<Bytes> {
    if es == [] then []
    else
      var e := es[|es| - 1];
      Texts(es[..|es| - 1], h) + TextIn(e, h)
  }

  function TextIn(e: Entry, h: int): seq<Bytes> {
    if e.text.Some? && HourOf(e) == h then [e.text.value] else []
  }

  /** The stamped lines of a delivery; a line without a stamp leaves no trace. */
  function Stamped(raws: seq<Option<Entry>>): seq<Entry> {
    if raws == [] then []
    else Stamped(raws[..|raws| - 1]) + (if raws[|raws| - 1].Some? then [raws[|raws| - 1].value] else [])
  }

  function Max(a: nat, b: nat): nat {
    if a < b then b else a
  }

  lemma {:induction false} TextsAreFiled(es: seq<Entry>, h: int)
    ensures multiset(Texts(es, h)) == Filed(es, h)
  {
    if es != [] {
      TextsAreFiled(es[..|es| - 1], h);
    }
  }

  class Store {
    var files: map<int, HourFiles>
    var cursorFile: Option<Cursor>

    ghost predicate Valid()
      reads this
    {
      forall h :: Files.AllWhole(FilesOf(files, h).gz)
    }

    constructor ()
      ensures Valid() && files == map[] && cursorFile == None
    {
      files := map[];
      cursorFile := None;
    }

    /** The durable position for `id`; another container's position counts as the start. */
    method CursorFor(id: nat) returns (since: nat, ack: nat)
      ensures since == Since(Mark(cursorFile, 0), id) && ack == Acknowledged(Mark(cursorFile, 0), id)
    {
      if cursorFile.None? || cursorFile.value.id != id {
        return 0, 0;
      }
      return cursorFile.value.ns, cursorFile.value.count;
    }

    method Checkpoint(id: nat, ns: nat, count: nat)
      modifies this`cursorFile
      ensures cursorFile == Some(Cursor(id, ns, count))
    {
      cursorFile := Some(Cursor(id, ns, count));
    }

    method Append(h: int, line: Bytes)
      requires Valid() && IsRecord(line)
      modifies this`files
      ensures Valid()
      ensures files == old(files)[h := HourFiles(Some(WholePrefix(PartBytes(old(FilesOf(files, h)).part)) + line),
                                                 old(FilesOf(files, h)).gz)]
      ensures StoredAt(files, h) == old(StoredAt(files, h)) + [line]
      ensures forall k :: k != h ==> StoredAt(files, k) == old(StoredAt(files, k))
    {
      var was := FilesOf(files, h);
      var out := new PartFile(PartBytes(was.part));
      out.RepairTail();
      var now := out.data + line;
      files := files[h := HourFiles(Some(now), was.gz)];
      assert forall k :: FilesOf(files, k) == if k == h then HourFiles(Some(now), was.gz) else old(FilesOf(files, k));
      AppendedRecord(was.part, was.gz, line);
    }

    method Seal(h: int)
      requires Valid() && FilesOf(files, h).part.Some?
      modifies this`files
      ensures Valid()
      ensures files == old(files)[h := HourFiles(None, old(FilesOf(files, h)).gz +
                                                       [WholePrefix(PartBytes(old(FilesOf(files, h)).part))])]
      ensures forall k :: StoredAt(files, k) == old(StoredAt(files, k))
    {
      var was := FilesOf(files, h);
      var tail := new PartFile(PartBytes(was.part));
      tail.RepairTail();
      files := files[h := HourFiles(None, was.gz + [tail.data])];
      SealedRecords(was.part, was.gz);
      assert forall k :: FilesOf(files, k) ==
                         if k == h then HourFiles(None, was.gz + [tail.data]) else old(FilesOf(files, k));
    }
  }

  lemma AppendedRecord(p: Option<Bytes>, g: seq<Bytes>, line: Bytes)
    requires Files.AllWhole(g) && IsRecord(line)
    ensures Stored(Some(WholePrefix(PartBytes(p)) + line), g) == Stored(p, g) + [line]
  {
    var w := WholePrefix(PartBytes(p));
    FlattenWhole(g);
    RecordsConcat(Flatten(g), PartBytes(p));
    RecordsConcat(Flatten(g), w + line);
    RecordsConcat(w, line);
    RepairKeepsRecords(PartBytes(p));
    SplitRecord([], line);
    assert [] + line == line;
  }

  lemma SealedRecords(p: Option<Bytes>, g: seq<Bytes>)
    requires Files.AllWhole(g)
    ensures Files.AllWhole(g + [WholePrefix(PartBytes(p))])
    ensures Stored(None, g + [WholePrefix(PartBytes(p))]) == Stored(p, g)
  {
    var w := WholePrefix(PartBytes(p));
    Files.ArchiveAppend(g, w);
    FlattenWhole(g);
    RecordsConcat(Flatten(g), w);
    RecordsConcat(Flatten(g), PartBytes(p));
    RepairKeepsRecords(PartBytes(p));
  }

  /** Store one due line and move the cursor past it. */
  method Take(store: Store, id: nat, e: Entry, latest: nat, count: nat) returns (latest': nat, count': nat)
    requires store.Valid() && (e.text.Some? ==> IsRecord(e.text.value))
    modifies store
    ensures store.Valid() && (latest', count') == Advance(e.ns, latest, count)
    ensures store.cursorFile == Some(Cursor(id, latest', count'))
    ensures forall h :: StoredAt(store.files, h) == old(StoredAt(store.files, h)) + TextIn(e, h)
  {
    if e.text.Some? {
      store.Append(HourOf(e), e.text.value);
    }
    latest', count' := latest, count;
    if e.ns > latest {
      latest', count' := e.ns, 1;
    } else if e.ns == latest {
      count' := count + 1;
    }
    store.Checkpoint(id, latest', count');
  }

  /** What the session knows after reading the delivery up to log index `next`. */
  ghost predicate Standing(log: seq<Entry>, id: nat, from: nat, since: nat, ack: nat, next: nat,
                           seen: nat, latest: nat, count: nat, file: Option<Cursor>) {
    && next <= |log| && ResumesAt(log, from, since, ack)
    && seen == CountAt(log, next, since)
    && (if next <= from then latest == since && count == ack
        else latest == log[next - 1].ns && count == CountAt(log, next, latest))
    && MarkOk(Mark(file, Max(from, next)), id, log)
  }

  lemma StandingSkips(log: seq<Entry>, id: nat, from: nat, since: nat, ack: nat, next: nat,
                      seen: nat, latest: nat, count: nat, file: Option<Cursor>)
    requires LogOk(log) && next < |log| && Standing(log, id, from, since, ack, next, seen, latest, count, file)
    ensures Skips(log[next].ns, since, ack, seen) <==> next < from
    ensures next < from ==>
              Standing(log, id, from, since, ack, next + 1, SeenAfter(log[next].ns, since, seen), latest, count, file)
  {
    SkipsExactlyAcknowledged(log, from, since, ack, next);
  }

  lemma StandingTakes(log: seq<Entry>, id: nat, from: nat, since: nat, ack: nat, next: nat,
                      seen: nat, latest: nat, count: nat, file: Option<Cursor>)
    requires LogOk(log) && from <= next < |log|
    requires Standing(log, id, from, since, ack, next, seen, latest, count, file)
    ensures var (latest', count') := Advance(log[next].ns, latest, count);
            Standing(log, id, from, since, ack, next + 1, SeenAfter(log[next].ns, since, seen), latest', count',
                     Some(Cursor(id, latest', count')))
  {
    AdvanceMarks(log, from, since, ack, next, latest, count);
  }

  lemma StandingStarts(log: seq<Entry>, id: nat, from: nat, start: nat, file: Option<Cursor>)
    requires LogOk(log) && MarkOk(Mark(file, from), id, log) && start <= |log|
    requires forall i :: 0 <= i < start ==> log[i].ns < Since(Mark(file, from), id)
    ensures start <= from
    ensures var since, ack := Since(Mark(file, 0), id), Acknowledged(Mark(file, 0), id);
            Standing(log, id, from, since, ack, start, 0, since, ack, file)
  {
    CountBelow(log, start, Since(Mark(file, from), id));
  }

  /** One stamped line: skip it if the durable cursor covers it, take it otherwise. */
  method Consider(store: Store, id: nat, e: Entry, since: nat, ack: nat, seen: nat, latest: nat, count: nat,
                  ghost log: seq<Entry>, ghost from: nat, ghost next: nat)
    returns (seen': nat, latest': nat, count': nat)
    requires store.Valid() && LogOk(log) && next < |log| && e == log[next]
    requires Standing(log, id, from, since, ack, next, seen, latest, count, store.cursorFile)
    modifies store
    ensures store.Valid()
    ensures Standing(log, id, from, since, ack, next + 1, seen', latest', count', store.cursorFile)
    ensures Considered(old(store.files), store.files, e, from <= next)
  {
    StandingSkips(log, id, from, since, ack, next, seen, latest, count, store.cursorFile);
    seen', latest', count' := seen, latest, count;
    if e.ns < since {
      return;
    }
    if e.ns == since {
      seen' := seen + 1;
      if seen' <= ack {
        return;
      }
    }
    StandingTakes(log, id, from, since, ack, next, seen, latest, count, store.cursorFile);
    latest', count' := Take(store, id, e, latest, count);
  }

  /** One follower session.  Docker delivers the log from `start`, at or before the boundary, to
      the end of `raws`; the session appends exactly the entries not yet acknowledged, once each
      and in order, and leaves a cursor that acknowledges them. */
  method FollowOnce(store: Store, id: nat, raws: seq<Option<Entry>>,
                    ghost log: seq<Entry>, ghost from: nat, ghost start: nat)
    requires store.Valid() && LogOk(log) && MarkOk(Mark(store.cursorFile, from), id, log)
    requires start <= |log| && Stamped(raws) <= log[start..]
    requires forall i :: 0 <= i < start ==> log[i].ns < Since(Mark(store.cursorFile, from), id)
    modifies store
    ensures store.Valid()
    ensures var end := Max(from, start + |Stamped(raws)|);
            && MarkOk(Mark(store.cursorFile, end), id, log)
            && Gained(old(store.files), store.files, log[from..end])
  {
    var since, acknowledged := store.CursorFor(id);
    var boundarySeen := 0;
    var latest, count := since, acknowledged;
    ghost var next := start;
    StandingStarts(log, id, from, start, store.cursorFile);
    assert log[from..Max(from, start)] == [];
    GainedNothing(store.files);
    var i := 0;
    while i < |raws|
      invariant 0 <= i <= |raws| && store.Valid()
      invariant next == start + |Stamped(raws[..i])|
      invariant Standing(log, id, from, since, acknowledged, next, boundarySeen, latest, count, store.cursorFile)
      invariant Gained(old(store.files), store.files, log[from..Max(from, next)])
    {
      StampedAt(raws, i, log, start);
      if raws[i].Some? {
        ghost var mid := store.files;
        boundarySeen, latest, count :=
          Consider(store, id, raws[i].value, since, acknowledged, boundarySeen, latest, count, log, from, next);
        GainedStep(old(store.files), mid, store.files, log, from, next);
        next := next + 1;
      }
      i := i + 1;
    }
    assert raws[..|raws|] == raws;
  }

  lemma {:induction false} StampedAppend(a: seq<Option<Entry>>, b: seq<Option<Entry>>)
    ensures Stamped(a + b) == Stamped(a) + Stamped(b)
  {
    if b == [] {
      assert a + b == a;
    } else {
      assert (a + b)[..|a + b| - 1] == a + b[..|b| - 1];
      StampedAppend(a, b[..|b| - 1]);
    }
  }

  /** The next stamped line of a delivery is the next log entry. */
  lemma StampedAt(raws: seq<Option<Entry>>, i: nat, log: seq<Entry>, start: nat)
    requires i < |raws| && start <= |log| && Stamped(raws) <= log[start..]
    ensures |Stamped(raws[..i + 1])| == |Stamped(raws[..i])| + (if raws[i].Some? then 1 else 0)
    ensures raws[i].Some? ==>
              var n := start + |Stamped(raws[..i])|; n < |log| && raws[i].value == log[n]
  {
    var head, rest := raws[..i + 1], raws[i + 1..];
    assert head[..i] == raws[..i];
    assert raws == head + rest;
    StampedAppend(head, rest);
    if raws[i].Some? {
      var k := |Stamped(raws[..i])|;
      assert Stamped(head)[k] == raws[i].value;
      assert Stamped(raws)[k] == Stamped(head)[k];
      assert log[start..][k] == log[start + k];
    }
  }

  /** Every hour gained exactly the whitelisted lines of `es`, in order. */
  ghost predicate Gained(before: map<int, HourFiles>, after: map<int, HourFiles>, es: seq<Entry>) {
    forall h :: StoredAt(after, h) == StoredAt(before, h) + Texts(es, h)
  }

  ghost predicate Considered(before: map<int, HourFiles>, after: map<int, HourFiles>, e: Entry, due: bool) {
    forall h :: StoredAt(after, h) == StoredAt(before, h) + (if due then TextIn(e, h) else [])
  }

  lemma TextsNext(log: seq<Entry>, from: nat, next: nat, h: int)
    requires from <= |log| && next < |log|
    ensures Texts(log[from..Max(from, next + 1)], h) ==
            Texts(log[from..Max(from, next)], h) + (if from <= next then TextIn(log[next], h) else [])
  {
    if from <= next {
      var es := log[from..next + 1];
      assert es[..|es| - 1] == log[from..next];
    }
  }

  lemma Extend(a: seq<Bytes>, b: seq<Bytes>, c: seq<Bytes>, t: seq<Bytes>, x: seq<Bytes>)
    requires b == a + t && c == b + x
    ensures c == a + (t + x)
  {
  }

  lemma GainedStep(before: map<int, HourFiles>, mid: map<int, HourFiles>, after: map<int, HourFiles>,
                   log: seq<Entry>, from: nat, next: nat)
    requires from <= |log| && next < |log|
    requires Gained(before, mid, log[from..Max(from, next)])
    requires Considered(mid, after, log[next], from <= next)
    ensures Gained(before, after, log[from..Max(from, next + 1)])
  {
    forall h ensures StoredAt(after, h) == StoredAt(before, h) + Texts(log[from..Max(from, next + 1)], h) {
      TextsNext(log, from, next, h);
      Extend(StoredAt(before, h), StoredAt(mid, h), StoredAt(after, h), Texts(log[from..Max(from, next)], h),
             if from <= next then TextIn(log[next], h) else []);
    }
  }

  lemma GainedNothing(files: map<int, HourFiles>)
    ensures Gained(files, files, [])
  {
    forall h ensures StoredAt(files, h) == StoredAt(files, h) + Texts([], h) {
    }
  }

  // ---- agreement with the crash machine

  /** Each step of the append makes the next one possible. */
  lemma AppendChain(s: State)
    requires Enabled(s, AppendOpen)
    ensures var r, h := Current(s).text.value, HourOf(Current(s));
            var w := WholePrefix(PartBytes(At(s.slots, h).part.live));
            var s2 := DoAppendRepair(DoAppendOpen(s));
            && Enabled(DoAppendOpen(s), AppendRepair) && Enabled(s2, AppendWrite(|r|)) && s2.op == AppendRepaired(w)
            && AtEntry(s2, Storing) && Current(s2) == Current(s)
  {
  }

  lemma AppendChainEnds(s2: State)
    requires AtEntry(s2, Storing) && s2.op.AppendRepaired? && Current(s2).text.Some?
    ensures var r, h := Current(s2).text.value, HourOf(Current(s2));
            var s3 := DoAppendWrite(s2, |r|);
            var s4 := DoAppendSync(s3);
            && Enabled(s3, AppendSync) && Enabled(s4, AppendSyncDir)
            && At(DoAppendSyncDir(s4).slots, h).part == View(Some(s2.op.w + r), {Some(s2.op.w + r)})
  {
    assert Current(s2).text.value[..|Current(s2).text.value|] == Current(s2).text.value;
  }

  /** Run without a crash, the machine's append leaves exactly the file `Store.Append` writes, with
      no older image left to survive. */
  lemma AppendAgrees(s: State)
    requires Enabled(s, AppendOpen)
    ensures var h, r := HourOf(Current(s)), Current(s).text.value;
            var now := Some(WholePrefix(PartBytes(At(s.slots, h).part.live)) + r);
            var s1 := Do(s, AppendOpen);
            && Enabled(s1, AppendRepair)
            && var s2 := Do(s1, AppendRepair);
            && Enabled(s2, AppendWrite(|r|))
            && var s3 := Do(s2, AppendWrite(|r|));
            && Enabled(s3, AppendSync)
            && var s4 := Do(s3, AppendSync);
            && Enabled(s4, AppendSyncDir)
            && At(Do(s4, AppendSyncDir).slots, h).part == View(now, {now})
  {
    AppendChain(s);
    AppendChainEnds(DoAppendRepair(DoAppendOpen(s)));
  }

  /** Run without a crash, the machine's checkpoint leaves exactly the cursor file `Store.Checkpoint`
      writes, acknowledges the entry, and leaves no older cursor to survive. */
  lemma CheckpointAgrees(s: State)
    requires Enabled(s, CursorReplace)
    ensures var e, f := Current(s), s.session;
            var (latest, count) := Advance(e.ns, f.latest, f.count);
            var mark := Mark(Some(Cursor(s.id, latest, count)), f.next + 1);
            var s1 := Do(s, CursorReplace);
            && Enabled(s1, CursorSync)
            && Do(s1, CursorSync).cursor == View(mark, {mark}) && Do(s1, CursorSync).slots == s.slots
            && Do(s1, CursorSync).session == f.(next := f.next + 1, latest := latest, count := count, phase := Reading)
  {
  }

  lemma SealChain(s: State, h: int)
    requires Enabled(s, SealRepair(h))
    ensures var x := At(s.slots, h);
            var w := WholePrefix(PartBytes(x.part.live));
            var s3 := DoSealReplace(DoSealPartSync(DoSealRepair(s, h)));
            && s3.op == SealReplaced(h)
            && At(s3.slots, h).part.live == Some(w) && At(s3.slots, h).gz.live == x.gz.live + [w]
  {
  }

  lemma SealChainEnds(s3: State, h: int)
    requires s3.op == SealReplaced(h)
    ensures var g := At(s3.slots, h).gz.live;
            var t := DoSealDone(DoSealUnlink(DoSealArchiveSync(s3)));
            At(t.slots, h) == Slot(View(None, {None}), View(g, {g})) && t.op == Idle
  {
  }

  /** Run without a crash, the machine's seal leaves exactly the files `Store.Seal` leaves. */
  lemma SealAgrees(s: State, h: int)
    requires Enabled(s, SealRepair(h))
    ensures var x := At(s.slots, h);
            var g := x.gz.live + [WholePrefix(PartBytes(x.part.live))];
            var s1 := Do(s, SealRepair(h));
            && Enabled(s1, SealPartSync)
            && var s2 := Do(s1, SealPartSync);
            && Enabled(s2, SealReplace)
            && var s3 := Do(s2, SealReplace);
            && Enabled(s3, SealArchiveSync)
            && var s4 := Do(s3, SealArchiveSync);
            && Enabled(s4, SealUnlink)
            && var s5 := Do(s4, SealUnlink);
            && Enabled(s5, SealDone)
            && At(Do(s5, SealDone).slots, h) == Slot(View(None, {None}), View(g, {g}))
  {
    SealChain(s, h);
    SealChainEnds(DoSealReplace(DoSealPartSync(DoSealRepair(s, h))), h);
  }
}
