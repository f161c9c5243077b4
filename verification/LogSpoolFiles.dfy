/** What one hour's files guarantee while an append, a seal or a crash changes them. */
module LogSpoolFiles {
  import opened LogText
  import opened Prelude
  import opened LogSpool

  ghost predicate SlotOk(x: Slot) {
    && x.part.live in x.part.images && x.gz.live in x.gz.images
    && forall g :: g in x.gz.images ==> AllWhole(g)
  }

  predicate AllWhole(g: seq<Bytes>) {
    forall i :: 0 <= i < |g| ==> Whole(g[i])
  }

  /** The hour always holds `low`, and `up` bounds it unless a seal was torn apart; `op` is the
      operation changing this hour (or `Idle`) and `r` the record an append is writing. */
  ghost predicate HourOk(x: Slot, op: Op, r: Bytes, low: multiset<Bytes>, up: multiset<Bytes>, broken: bool) {
    && SlotOk(x) && SlotHolds(x, low)
    && (!broken && !op.PastReplace() ==> SlotWithin(x, up))
    && OpOk(x, op, r, low, up, broken)
  }

  ghost predicate OpOk(x: Slot, op: Op, r: Bytes, low: multiset<Bytes>, up: multiset<Bytes>, broken: bool) {
    match op
    case Idle => true
    case CursorReplaced => true
    case AppendOpened => x.part.live.Some? && IsRecord(r) && HasRoom(x, r, up, broken)
    case AppendRepaired(w) => x.part.live == Some(w) && IsRecord(r) && HasRoom(x, r, up, broken) && Based(x, w, low)
    case AppendWritten(w, k) => IsRecord(r) && k <= |r| && x.part.live == Some(w + r[..k]) && Based(x, w, low)
    case AppendSynced(w) => IsRecord(r) && x.part.live == Some(w + r) && Based(x, w, low)
    case SealRepaired(_, w) => Whole(w) && x.part.live == Some(w)
    case SealPartSynced(_, w) => Whole(w) && x.part.live == Some(w) && x.part.images <= {Some(w), None}
    case SealReplaced(_) => Archived(x, low, up, broken)
    case SealArchiveSynced(_) => Archived(x, low, up, broken) && x.gz.images == {x.gz.live}
    case SealUnlinked(_) =>
      Archived(x, low, up, broken) && x.gz.images == {x.gz.live} && x.part.live == None
  }

  /** The ceiling already counts the record about to be written. */
  ghost predicate HasRoom(x: Slot, r: Bytes, up: multiset<Bytes>, broken: bool) {
    !broken ==> SlotWithin(x, up - multiset{r})
  }

  /** The repaired file an append builds on already holds what is owed. */
  ghost predicate Based(x: Slot, w: Bytes, low: multiset<Bytes>) {
    Whole(w) && forall g :: g in x.gz.images ==> low <= multiset(Stored(Some(w), g))
  }

  /** The new archive alone accounts for the hour. */
  ghost predicate Archived(x: Slot, low: multiset<Bytes>, up: multiset<Bytes>, broken: bool) {
    && low <= multiset(Stored(None, x.gz.live))
    && (!broken ==> multiset(Stored(None, x.gz.live)) <= up)
  }

  // ---- bytes and records

  lemma StoredSplits(p: Option<Bytes>, g: seq<Bytes>)
    requires AllWhole(g)
    ensures multiset(Stored(p, g)) == multiset(Records(Flatten(g))) + multiset(Records(PartBytes(p)))
  {
    FlattenWhole(g);
    RecordsConcat(Flatten(g), PartBytes(p));
  }

  lemma TornRecords(w: Bytes, r: Bytes, j: nat)
    requires Whole(w) && IsRecord(r) && j <= |r|
    ensures Records(w + r[..j]) == if j == |r| then Records(w) + [r] else Records(w)
  {
    RecordsConcat(w, r[..j]);
    if j == |r| {
      assert r[..j] == r;
      SplitRecord([], r);
      assert [] + r == r;
    } else {
      SplitNoNewline([], r[..j]);
      assert Records(w) + [] == Records(w);
    }
  }

  lemma TornStored(w: Bytes, r: Bytes, j: nat, g: seq<Bytes>)
    requires AllWhole(g) && Whole(w) && IsRecord(r) && j <= |r|
    ensures multiset(Stored(Some(w + r[..j]), g)) ==
            multiset(Stored(Some(w), g)) + (if j == |r| then multiset{r} else multiset{})
  {
    StoredSplits(Some(w + r[..j]), g);
    StoredSplits(Some(w), g);
    TornRecords(w, r, j);
  }

  lemma RepairedStores(p: Option<Bytes>, g: seq<Bytes>)
    requires AllWhole(g)
    ensures multiset(Stored(Some(WholePrefix(PartBytes(p))), g)) == multiset(Stored(p, g))
  {
    StoredSplits(p, g);
    StoredSplits(Some(WholePrefix(PartBytes(p))), g);
    RepairKeepsRecords(PartBytes(p));
  }

  lemma ArchiveAppend(g: seq<Bytes>, w: Bytes)
    requires AllWhole(g) && Whole(w)
    ensures AllWhole(g + [w])
    ensures Stored(None, g + [w]) == Stored(Some(w), g)
    ensures multiset(Stored(Some(w), g)) <= multiset(Stored(Some(w), g + [w]))
  {
    FlattenAppend(g, [w]);
    assert Flatten([w]) == w + Flatten([]) == w;
    assert Flatten(g + [w]) + [] == Flatten(g) + w;
    StoredSplits(Some(w), g + [w]);
    StoredSplits(None, g + [w]);
  }

  // ---- rewriting the open file

  ghost predicate SameContent(p: Option<Bytes>, q: Option<Bytes>, gs: set<seq<Bytes>>) {
    forall g :: g in gs ==> multiset(Stored(p, g)) == multiset(Stored(q, g))
  }

  lemma RepairSame(x: Slot)
    requires SlotOk(x)
    ensures SameContent(Some(WholePrefix(PartBytes(x.part.live))), x.part.live, x.gz.images)
  {
    forall g | g in x.gz.images
      ensures multiset(Stored(Some(WholePrefix(PartBytes(x.part.live))), g)) == multiset(Stored(x.part.live, g))
    {
      RepairedStores(x.part.live, g);
    }
  }

  lemma RewriteHolds(x: Slot, p: Option<Bytes>, low: multiset<Bytes>)
    requires SlotOk(x) && SlotHolds(x, low) && SameContent(p, x.part.live, x.gz.images)
    ensures SlotOk(x.(part := x.part.Write(p, {}))) && SlotHolds(x.(part := x.part.Write(p, {})), low)
  {
  }

  lemma RewriteWithin(x: Slot, p: Option<Bytes>, up: multiset<Bytes>)
    requires SlotOk(x) && SlotWithin(x, up) && SameContent(p, x.part.live, x.gz.images)
    ensures SlotWithin(x.(part := x.part.Write(p, {})), up)
  {
  }

  lemma TornOne(w: Bytes, r: Bytes, j: nat, g: seq<Bytes>, low: multiset<Bytes>, up: multiset<Bytes>, broken: bool)
    requires AllWhole(g) && Whole(w) && IsRecord(r) && j <= |r| && r in up
    requires low <= multiset(Stored(Some(w), g))
    requires !broken ==> multiset(Stored(Some(w), g)) <= up - multiset{r}
    ensures low <= multiset(Stored(Some(w + r[..j]), g))
    ensures !broken ==> multiset(Stored(Some(w + r[..j]), g)) <= up
  {
    TornStored(w, r, j, g);
    assert up - multiset{r} + multiset{r} == up;
  }

  ghost predicate Bracketed(p: Option<Bytes>, gs: set<seq<Bytes>>,
                            low: multiset<Bytes>, up: multiset<Bytes>, broken: bool) {
    forall g :: g in gs ==> low <= multiset(Stored(p, g)) && (!broken ==> multiset(Stored(p, g)) <= up)
  }

  lemma TornImage(x: Slot, w: Bytes, r: Bytes, j: nat, low: multiset<Bytes>, up: multiset<Bytes>, broken: bool)
    requires SlotOk(x) && Based(x, w, low) && IsRecord(r) && Some(w) in x.part.images
    requires r in up && HasRoom(x, r, up, broken) && j <= |r|
    ensures Bracketed(Some(w + r[..j]), x.gz.images, low, up, broken)
  {
    forall g | g in x.gz.images
      ensures low <= multiset(Stored(Some(w + r[..j]), g))
      ensures !broken ==> multiset(Stored(Some(w + r[..j]), g)) <= up
    {
      TornOne(w, r, j, g, low, up, broken);
    }
  }

  /** Every torn image of the append holds what is owed and stays below the ceiling. */
  lemma TornAll(x: Slot, w: Bytes, r: Bytes, k: nat, low: multiset<Bytes>, up: multiset<Bytes>, broken: bool)
    requires SlotOk(x) && Based(x, w, low) && IsRecord(r) && Some(w) in x.part.images
    requires r in up && HasRoom(x, r, up, broken) && k <= |r|
    ensures forall p :: p in Torn(w, r, k) ==> Bracketed(p, x.gz.images, low, up, broken)
    ensures Some(w + r[..k]) in Torn(w, r, k)
  {
    forall p | p in Torn(w, r, k) ensures Bracketed(p, x.gz.images, low, up, broken) {
      var j :| 0 <= j <= k && p == Some(w + r[..j]);
      TornImage(x, w, r, j, low, up, broken);
    }
  }

  lemma WriteHolds(x: Slot, now: Option<Bytes>, torn: set<Option<Bytes>>, low: multiset<Bytes>)
    requires SlotOk(x) && SlotHolds(x, low) && now in torn
    requires forall p, g :: p in torn && g in x.gz.images ==> low <= multiset(Stored(p, g))
    ensures var y := x.(part := x.part.Write(now, torn)); SlotOk(y) && SlotHolds(y, low)
  {
  }

  lemma WriteWithin(x: Slot, now: Option<Bytes>, torn: set<Option<Bytes>>, up: multiset<Bytes>)
    requires SlotWithin(x, up) && now in torn
    requires forall p, g :: p in torn && g in x.gz.images ==> multiset(Stored(p, g)) <= up
    ensures SlotWithin(x.(part := x.part.Write(now, torn)), up)
  {
  }

  // ---- one hour through the append

  lemma Weaken(x: Slot, op: Op, r: Bytes, low: multiset<Bytes>, up: multiset<Bytes>, broken: bool,
               low': multiset<Bytes>, up': multiset<Bytes>, broken': bool)
    requires HourOk(x, op, r, low, up, broken) && low' <= low && up <= up' && (broken ==> broken')
    ensures HourOk(x, op, r, low', up', broken')
  {
  }

  lemma Opens(x: Slot, r: Bytes, low: multiset<Bytes>, up: multiset<Bytes>, broken: bool)
    requires HourOk(x, Idle, [], low, up, broken) && IsRecord(r)
    ensures var part := if x.part.live.Some? then x.part else x.part.Write(Some([]), {});
            HourOk(x.(part := part), AppendOpened, r, low, up + multiset{r}, broken)
  {
    assert up + multiset{r} - multiset{r} == up;
    assert forall g :: Stored(Some([]), g) == Stored(None, g);
  }

  lemma Repairs(x: Slot, r: Bytes, low: multiset<Bytes>, up: multiset<Bytes>, broken: bool)
    requires HourOk(x, AppendOpened, r, low, up, broken)
    ensures var w := WholePrefix(PartBytes(x.part.live));
            HourOk(x.(part := x.part.Write(Some(w), {})), AppendRepaired(w), r, low, up, broken)
  {
    var w := WholePrefix(PartBytes(x.part.live));
    RepairSame(x);
    RewriteHolds(x, Some(w), low);
    if !broken {
      RewriteWithin(x, Some(w), up);
      RewriteWithin(x, Some(w), up - multiset{r});
    }
  }

  lemma Writes(x: Slot, w: Bytes, k: nat, r: Bytes, low: multiset<Bytes>, up: multiset<Bytes>, broken: bool)
    requires HourOk(x, AppendRepaired(w), r, low, up, broken) && k <= |r| && r in up
    ensures HourOk(x.(part := x.part.Write(Some(w + r[..k]), Torn(w, r, k))), AppendWritten(w, k), r, low, up, broken)
  {
    TornAll(x, w, r, k, low, up, broken);
    WriteHolds(x, Some(w + r[..k]), Torn(w, r, k), low);
    if !broken {
      WriteWithin(x, Some(w + r[..k]), Torn(w, r, k), up);
    }
  }

  lemma Syncs(x: Slot, w: Bytes, r: Bytes, low: multiset<Bytes>, up: multiset<Bytes>, broken: bool)
    requires HourOk(x, AppendWritten(w, |r|), r, low, up, broken)
    ensures HourOk(x.(part := SyncedPart(x.part)), AppendSynced(w), r, low, up, broken)
  {
    assert r[..|r|] == r;
  }

  /** Once file and directory are synced, every image holds the new record too. */
  lemma Lands(x: Slot, w: Bytes, r: Bytes, low: multiset<Bytes>, up: multiset<Bytes>, broken: bool)
    requires HourOk(x, AppendSynced(w), r, low, up, broken)
    ensures HourOk(x.(part := x.part.Sync()), Idle, [], low + multiset{r}, up, broken)
  {
    forall g | g in x.gz.images ensures low + multiset{r} <= multiset(Stored(Some(w + r), g)) {
      assert r[..|r|] == r;
      TornStored(w, r, |r|, g);
    }
  }

  // ---- one hour through the seal

  lemma SealRepairs(x: Slot, h: int, low: multiset<Bytes>, up: multiset<Bytes>, broken: bool)
    requires HourOk(x, Idle, [], low, up, broken)
    ensures var w := WholePrefix(PartBytes(x.part.live));
            HourOk(x.(part := x.part.Write(Some(w), {})), SealRepaired(h, w), [], low, up, broken)
  {
    var w := WholePrefix(PartBytes(x.part.live));
    RepairSame(x);
    RewriteHolds(x, Some(w), low);
    if !broken {
      RewriteWithin(x, Some(w), up);
    }
  }

  lemma SealPartSyncs(x: Slot, h: int, w: Bytes, low: multiset<Bytes>, up: multiset<Bytes>, broken: bool)
    requires HourOk(x, SealRepaired(h, w), [], low, up, broken)
    ensures HourOk(x.(part := SyncedPart(x.part)), SealPartSynced(h, w), [],
                   low, up, broken)
  {
  }

  lemma SealReplaces(x: Slot, h: int, w: Bytes, low: multiset<Bytes>, up: multiset<Bytes>, broken: bool)
    requires HourOk(x, SealPartSynced(h, w), [], low, up, broken)
    ensures HourOk(x.(gz := x.gz.Write(x.gz.live + [w], {})), SealReplaced(h), [], low, up, broken)
  {
    ArchiveAppend(x.gz.live, w);
  }

  lemma SealArchiveSyncs(x: Slot, h: int, low: multiset<Bytes>, up: multiset<Bytes>, broken: bool)
    requires HourOk(x, SealReplaced(h), [], low, up, broken)
    ensures HourOk(Slot(x.part.Sync(), x.gz.Sync()), SealArchiveSynced(h), [], low, up, broken)
  {
  }

  lemma SealUnlinks(x: Slot, h: int, low: multiset<Bytes>, up: multiset<Bytes>, broken: bool)
    requires HourOk(x, SealArchiveSynced(h), [], low, up, broken)
    ensures HourOk(x.(part := x.part.Write(None, {})), SealUnlinked(h), [], low, up, broken)
  {
  }

  lemma SealFinishes(x: Slot, h: int, low: multiset<Bytes>, up: multiset<Bytes>, broken: bool)
    requires HourOk(x, SealUnlinked(h), [], low, up, broken)
    ensures HourOk(x.(part := x.part.Sync()), Idle, [], low, up, broken)
  {
  }

  // ---- interruption

  lemma Abandons(x: Slot, op: Op, r: Bytes, low: multiset<Bytes>, up: multiset<Bytes>, broken: bool)
    requires HourOk(x, op, r, low, up, broken)
    ensures HourOk(x, Idle, [], low, up, broken || op.PastReplace())
  {
  }

  lemma Crashes(x: Slot, op: Op, r: Bytes, low: multiset<Bytes>, up: multiset<Bytes>, broken: bool,
                p: Option<Bytes>, g: seq<Bytes>)
    requires HourOk(x, op, r, low, up, broken) && p in x.part.images && g in x.gz.images
    ensures HourOk(Slot(View(p, {p}), View(g, {g})), Idle, [], low, up, broken || op.PastReplace())
  {
  }
}
