/** Newline-delimited bytes: the shape of every hour file of the log spool and of every
    container stream.  A record is a run of bytes whose only newline is its last byte. */
module LogText {
  type byte = b: int | 0 <= b < 256
  type Bytes = seq<byte>

  const NL: byte := 10

  /** The completed lines of `s` read after the unfinished line `held`, and the new
      unfinished line. */
  function Split(held: Bytes, s: Bytes): (r: (seq<Bytes>, Bytes))
    decreases |s|
  {
    if s == [] then ([], held)
    else if s[0] == NL then
      var (lines, rest) := Split([], s[1..]);
      ([held + [NL]] + lines, rest)
    else Split(held + [s[0]], s[1..])
  }

  function Records(s: Bytes): seq<Bytes> {
    Split([], s).0
  }

  function Flatten(parts: seq<Bytes>): Bytes {
    if parts == [] then [] else parts[0] + Flatten(parts[1..])
  }

  predicate Whole(s: Bytes) {
    s == [] || s[|s| - 1] == NL
  }

  predicate IsRecord(r: Bytes) {
    r != [] && r[|r| - 1] == NL && NL !in r[..|r| - 1]
  }

  /** The longest newline-terminated prefix. */
  function WholePrefix(s: Bytes): (p: Bytes)
    ensures Whole(p) && p <= s
    ensures forall i :: |p| <= i < |s| ==> s[i] != NL
    decreases |s|
  {
    if Whole(s) then s else WholePrefix(s[..|s| - 1])
  }

  /** `Split` loses no byte, ends every line with its only newline, and keeps none back. */
  lemma {:induction false} SplitPartitions(held: Bytes, s: Bytes)
    requires NL !in held
    ensures Flatten(Split(held, s).0) + Split(held, s).1 == held + s
    ensures forall i :: 0 <= i < |Split(held, s).0| ==> IsRecord(Split(held, s).0[i])
    ensures NL !in Split(held, s).1
    decreases |s|
  {
    if s != [] {
      if s[0] == NL {
        SplitPartitions([], s[1..]);
        var (lines, rest) := Split([], s[1..]);
        assert ([held + [NL]] + lines)[1..] == lines;
        assert held + s == (held + [NL]) + s[1..] == (held + [NL]) + (Flatten(lines) + rest);
      } else {
        SplitPartitions(held + [s[0]], s[1..]);
        assert held + s == (held + [s[0]]) + s[1..];
      }
    }
  }

  lemma {:induction false} SplitAppend(held: Bytes, a: Bytes, b: Bytes)
    ensures Split(held, a + b) ==
            (Split(held, a).0 + Split(Split(held, a).1, b).0, Split(Split(held, a).1, b).1)
    decreases |a|
  {
    if a == [] {
      assert a + b == b;
      assert [] + Split(held, b).0 == Split(held, b).0;
    } else {
      assert (a + b)[1..] == a[1..] + b;
      if a[0] == NL {
        SplitAppend([], a[1..], b);
        var (first, rest) := Split([], a[1..]);
        assert [held + [NL]] + (first + Split(rest, b).0) == ([held + [NL]] + first) + Split(rest, b).0;
      } else {
        SplitAppend(held + [a[0]], a[1..], b);
      }
    }
  }

  /** Bytes without a newline complete nothing. */
  lemma {:induction false} SplitNoNewline(held: Bytes, s: Bytes)
    requires NL !in s
    ensures Split(held, s) == ([], held + s)
    decreases |s|
  {
    if s != [] {
      assert held + s == (held + [s[0]]) + s[1..];
      SplitNoNewline(held + [s[0]], s[1..]);
    } else {
      assert held + s == held;
    }
  }

  lemma SplitRecord(held: Bytes, r: Bytes)
    requires IsRecord(r)
    ensures Split(held, r) == ([held + r], [])
  {
    var body := r[..|r| - 1];
    assert r == body + [NL];
    SplitAppend(held, body, [NL]);
    SplitNoNewline(held, body);
    assert held + r == held + body + [NL];
    assert Split([], []) == ([], []);
    assert [NL][1..] == [];
    assert [held + r] + [] == [held + r] == [] + [held + r];
  }

  lemma {:induction false} FlattenWhole(parts: seq<Bytes>)
    requires forall i :: 0 <= i < |parts| ==> Whole(parts[i])
    ensures Whole(Flatten(parts))
  {
    if parts != [] {
      FlattenWhole(parts[1..]);
    }
  }

  lemma {:induction false} FlattenAppend(a: seq<Bytes>, b: seq<Bytes>)
    ensures Flatten(a + b) == Flatten(a) + Flatten(b)
  {
    if a == [] {
      assert a + b == b;
    } else {
      assert (a + b)[1..] == a[1..] + b;
      FlattenAppend(a[1..], b);
    }
  }

  /** After a whole prefix, reading starts afresh. */
  lemma {:induction false} WholeLeavesNothing(held: Bytes, s: Bytes)
    requires Whole(s) && (s == [] ==> held == [])
    ensures Split(held, s).1 == []
    decreases |s|
  {
    if s != [] {
      if s[0] == NL {
        WholeLeavesNothing([], s[1..]);
      } else {
        WholeLeavesNothing(held + [s[0]], s[1..]);
      }
    }
  }

  lemma RecordsConcat(w: Bytes, s: Bytes)
    requires Whole(w)
    ensures Records(w + s) == Records(w) + Records(s)
  {
    SplitAppend([], w, s);
    WholeLeavesNothing([], w);
  }

  /** Cutting the torn tail keeps every record. */
  lemma RepairKeepsRecords(s: Bytes)
    ensures Records(WholePrefix(s)) == Records(s)
  {
    var p := WholePrefix(s);
    var tail := s[|p|..];
    assert s == p + tail;
    assert forall i :: 0 <= i < |tail| ==> tail[i] == s[|p| + i];
    RecordsConcat(p, tail);
    SplitNoNewline([], tail);
  }

  /** Every newline-terminated prefix survives the repair. */
  lemma WholePrefixIsLongest(s: Bytes, p: Bytes)
    requires p <= s && Whole(p)
    ensures p <= WholePrefix(s)
  {
    assert p != [] ==> s[|p| - 1] == NL;
  }

  /** An open hour file.  `_repair_tail` cuts it in place to its whole records. */
  class PartFile {
    var data: Bytes

    constructor (data: Bytes)
      ensures this.data == data
    {
      this.data := data;
    }

    method Truncate(size: nat)
      requires size <= |data|
      modifies this
      ensures data == old(data)[..size]
    {
      data := data[..size];
    }

    method RepairTail()
      modifies this
      ensures data == WholePrefix(old(data))
    {
      var end := |data|;
      var position := end;
      var hit := false;
      while position > 0 && !hit
        invariant 0 <= position <= |data| && data == old(data)
        invariant !hit ==> forall i :: position <= i < |data| ==> data[i] != NL
        invariant hit ==> 0 < end <= |data| && data[end - 1] == NL
        invariant hit ==> forall i :: end <= i < |data| ==> data[i] != NL
        decreases position, !hit
      {
        var start := if position >= 4096 then position - 4096 else 0;
        var block := data[start..position];
        var found := LastNewline(block);
        if found >= 0 {
          end := start + found + 1;
          hit := true;
          assert forall i :: start <= i < position ==> data[i] == block[i - start];
        } else {
          assert forall i :: start <= i < position ==> data[i] == block[i - start];
          position := start;
        }
      }
      if !hit {
        end := 0;
      }
      CutIsWholePrefix(data, end);
      Truncate(end);
    }
  }

  /** Python's `rfind` of a newline. */
  method LastNewline(block: Bytes) returns (found: int)
    ensures -1 <= found < |block|
    ensures found >= 0 ==> block[found] == NL
    ensures forall k :: found < k < |block| ==> block[k] != NL
  {
    found := |block| - 1;
    while found >= 0 && block[found] != NL
      invariant -1 <= found < |block|
      invariant forall k :: found < k < |block| ==> block[k] != NL
    {
      found := found - 1;
    }
  }

  /** Being whole with no newline after it determines the cut. */
  lemma CutIsWholePrefix(s: Bytes, end: nat)
    requires end <= |s| && Whole(s[..end])
    requires forall i :: end <= i < |s| ==> s[i] != NL
    ensures s[..end] == WholePrefix(s)
  {
    var w := WholePrefix(s);
    assert w != [] ==> s[|w| - 1] == NL;
    assert end > 0 ==> s[end - 1] == s[..end][end - 1] == NL;
    assert |w| == end;
  }
}
