/** Reassembly of one peer's byte stream: the range-merging receive buffer.

    `View` is the buffer as a value and `AcceptBytes` the functional form of one arrival.
    `AcceptRefinesSet` says what it means for the set of received positions, and
    the class below is the buffer as the source writes it, loop by loop, proved equal
    to the functional form. */
module ReceiveBuffer {
  import opened Basics

  /** A non-empty stretch of positions; `end` is the first one behind it. */
  datatype ByteRange = ByteRange(start: nat, end: nat)

  datatype View = View(next: nat, capacity: nat, buffered: int, ranges: seq<ByteRange>)

  /** The advertised window; its right edge never passes the last 64-bit position. */
  function WindowBytes(b: View): nat {
    Max(0, Min(b.capacity, MAX_UINT64 - b.next))
  }

  /** The first position this buffer will not accept. */
  function RightEdge(b: View): nat {
    b.next + WindowBytes(b)
  }

  predicate OverlapsWindow(b: View, start: nat, end: nat) {
    start < RightEdge(b) && end > b.next
  }

  // ---------- Sets of positions ----------

  ghost predicate Within(p: int, start: int, end: int) {
    start <= p < end
  }

  ghost function Span(start: int, end: int): set<int> {
    set p: int | Within(p, start, end) && start <= p < end
  }

  ghost function Positions(ranges: seq<ByteRange>): set<int> {
    if ranges == [] then {} else Span(ranges[0].start, ranges[0].end) + Positions(ranges[1..])
  }

  /** Everything received so far: the delivered prefix and the buffered islands. */
  ghost function Received(b: View): set<int> {
    Span(0, b.next) + Positions(b.ranges)
  }

  function TotalBytes(ranges: seq<ByteRange>): int {
    if ranges == [] then 0 else ranges[0].end - ranges[0].start + TotalBytes(ranges[1..])
  }

  // ---------- Shape ----------

  /** Sorted, disjoint, non-adjacent ranges, all strictly above `low`. */
  ghost predicate Separated(low: int, ranges: seq<ByteRange>)
    decreases |ranges|
  {
    ranges != [] ==>
      low < ranges[0].start < ranges[0].end && Separated(ranges[0].end, ranges[1..])
  }

  ghost predicate EndsBy(ranges: seq<ByteRange>, limit: int) {
    forall r :: r in ranges ==> r.end <= limit
  }

  lemma EndsByIndex(ranges: seq<ByteRange>, limit: int)
    requires EndsBy(ranges, limit)
    ensures forall k :: 0 <= k < |ranges| ==> ranges[k].end <= limit
  {
  }

  ghost predicate Valid(b: View) {
    && b.next <= MAX_UINT64
    && 1 <= b.capacity <= MAX_UINT16
    && Separated(b.next, b.ranges)
    && EndsBy(b.ranges, RightEdge(b))
    && b.buffered == TotalBytes(b.ranges)
  }

  // ---------- One arrival ----------

  /** `[start, end)` inserted into sorted ranges, swallowing every range it touches. */
  function Merge(ranges: seq<ByteRange>, start: nat, end: nat): (merged: seq<ByteRange>)
    ensures merged != []
    decreases |ranges|
  {
    if ranges == [] then [ByteRange(start, end)]
    else if ranges[0].end < start then [ranges[0]] + Merge(ranges[1..], start, end)
    else if ranges[0].start > end then [ByteRange(start, end)] + ranges
    else Merge(ranges[1..], Min(start, ranges[0].start), Max(end, ranges[0].end))
  }

  function AcceptBytes(b: View, start: nat, end: nat): (View, int) {
    var s := Max(start, b.next);
    var e := Min(end, RightEdge(b));
    if s >= e then (b, 0) else
      var merged := Merge(b.ranges, s, e);
      var added := TotalBytes(merged) - TotalBytes(b.ranges);
      (Release(b, merged, b.buffered + added), added)
  }

  /** The buffer holding `merged`, delivering its first range if that fills the earliest gap. */
  function Release(b: View, merged: seq<ByteRange>, buffered: int): View {
    if merged != [] && merged[0].start == b.next then
      View(merged[0].end, b.capacity, buffered - (merged[0].end - b.next), merged[1..])
    else
      View(b.next, b.capacity, buffered, merged)
  }

  // ---------- What Merge does ----------

  lemma {:induction false} SeparatedMembers(low: int, ranges: seq<ByteRange>)
    requires Separated(low, ranges)
    ensures forall r :: r in ranges ==> low < r.start < r.end
    ensures forall i, j :: 0 <= i < j < |ranges| ==> ranges[i].end < ranges[j].start
    decreases |ranges|
  {
    if ranges != [] {
      SeparatedMembers(ranges[0].end, ranges[1..]);
      assert forall i :: 1 <= i < |ranges| ==> ranges[i] == ranges[1..][i - 1];
    }
  }

  lemma {:induction false} PositionsMembers(ranges: seq<ByteRange>, p: int)
    ensures p in Positions(ranges) <==> exists r :: r in ranges && r.start <= p < r.end
    decreases |ranges|
  {
    if ranges != [] {
      PositionsMembers(ranges[1..], p);
      assert forall r :: r in ranges <==> r == ranges[0] || r in ranges[1..];
    }
  }

  /** Merging keeps the shape and adds exactly the positions of `[start, end)`. */
  lemma {:induction false} MergeCorrect(low: int, ranges: seq<ByteRange>, start: nat, end: nat)
    requires Separated(low, ranges) && low < start < end
    ensures Separated(low, Merge(ranges, start, end))
    ensures Positions(Merge(ranges, start, end)) == Positions(ranges) + Span(start, end)
    decreases |ranges|
  {
    if ranges == [] {
    } else if ranges[0].end < start {
      MergeCorrect(ranges[0].end, ranges[1..], start, end);
    } else if ranges[0].start > end {
    } else {
      var s, e := Min(start, ranges[0].start), Max(end, ranges[0].end);
      SeparatedWeaken(low, ranges[0].end, ranges[1..]);
      MergeCorrect(low, ranges[1..], s, e);
      assert Span(s, e) == Span(start, end) + Span(ranges[0].start, ranges[0].end);
    }
  }

  lemma SeparatedWeaken(low: int, high: int, ranges: seq<ByteRange>)
    requires low <= high && Separated(high, ranges)
    ensures Separated(low, ranges)
  {
  }

  // ---------- Counting ----------

  lemma {:induction false} SpanSize(start: int, end: int)
    requires start <= end
    ensures |Span(start, end)| == end - start
    decreases end - start
  {
    if start < end {
      SpanSize(start, end - 1);
      assert Span(start, end) == Span(start, end - 1) + {end - 1};
    } else {
      assert Span(start, end) == {};
    }
  }

  /** The sum of the range lengths counts every buffered position once. */
  lemma {:induction false} TotalBytesCounts(low: int, ranges: seq<ByteRange>)
    requires Separated(low, ranges)
    ensures |Positions(ranges)| == TotalBytes(ranges)
    ensures forall p :: p in Positions(ranges) ==> low < p
    decreases |ranges|
  {
    if ranges != [] {
      TotalBytesCounts(ranges[0].end, ranges[1..]);
      SpanSize(ranges[0].start, ranges[0].end);
      assert Span(ranges[0].start, ranges[0].end) !! Positions(ranges[1..]);
    }
  }

  lemma {:induction false} PositionsBelow(ranges: seq<ByteRange>, limit: int)
    ensures EndsBy(ranges, limit) ==> forall p :: p in Positions(ranges) ==> p < limit
    decreases |ranges|
  {
    if ranges != [] {
      PositionsBelow(ranges[1..], limit);
      assert forall r :: r in ranges[1..] ==> r in ranges;
    }
  }

  lemma {:induction false} MergeEndsBy(ranges: seq<ByteRange>, start: nat, end: nat, limit: int)
    requires EndsBy(ranges, limit) && end <= limit
    ensures EndsBy(Merge(ranges, start, end), limit)
    decreases |ranges|
  {
    if ranges != [] {
      assert forall r :: r in ranges[1..] ==> r in ranges;
      assert ranges[0] in ranges;
      if ranges[0].end < start {
        MergeEndsBy(ranges[1..], start, end, limit);
      } else if ranges[0].start <= end {
        MergeEndsBy(ranges[1..], Min(start, ranges[0].start), Max(end, ranges[0].end), limit);
      }
    }
  }

  // ---------- What one arrival does ----------

  /** Keeps the shape, never moves the left or the right edge back, and grows the
      counters by exactly the reported number of bytes. */
  lemma AcceptKeepsValid(b: View, start: nat, end: nat)
    requires Valid(b)
    ensures var (b', added) := AcceptBytes(b, start, end);
      && Valid(b')
      && b'.capacity == b.capacity
      && b.next <= b'.next <= Max(b.next, RightEdge(b))
      && RightEdge(b) <= RightEdge(b')
      && added == (b'.next + b'.buffered) - (b.next + b.buffered)
  {
    var s, e := Max(start, b.next), Min(end, RightEdge(b));
    if s < e {
      SeparatedWeaken(b.next - 1, b.next, b.ranges);
      MergeCorrect(b.next - 1, b.ranges, s, e);
      MergeEndsBy(b.ranges, s, e, RightEdge(b));
      var merged := Merge(b.ranges, s, e);
      if merged[0].start == b.next {
        assert merged[0] in merged;
        assert forall r :: r in merged[1..] ==> r in merged;
      }
    }
  }

  /** Bytes below a limit stay below it. */
  lemma AcceptBound(b: View, start: nat, end: nat, limit: int)
    requires Valid(b) && b.next <= limit && EndsBy(b.ranges, limit) && end <= limit
    ensures var b' := AcceptBytes(b, start, end).0; b'.next <= limit && EndsBy(b'.ranges, limit)
  {
    var s, e := Max(start, b.next), Min(end, RightEdge(b));
    if s < e {
      MergeEndsBy(b.ranges, s, e, limit);
      var merged := Merge(b.ranges, s, e);
      assert merged[0] in merged;
      assert forall r :: r in merged[1..] ==> r in merged;
    }
  }

  /** An arrival is "add `[start, end)` inside the window to a set of positions": the new
      set, and the count of positions that were not there before. */
  lemma AcceptRefinesSet(b: View, start: nat, end: nat)
    requires Valid(b)
    ensures var (b', added) := AcceptBytes(b, start, end);
      && Valid(b')
      && Received(b') == Received(b) + Span(start, end) * Span(b.next, RightEdge(b))
      && added == |Received(b') - Received(b)|
  {
    AcceptKeepsValid(b, start, end);
    var s, e := Max(start, b.next), Min(end, RightEdge(b));
    assert Span(start, end) * Span(b.next, RightEdge(b)) == Span(s, e);
    if s < e {
      AcceptedSet(b, s, e);
      NewPositions(b, Merge(b.ranges, s, e));
    } else {
      assert Received(b) - Received(b) == {};
    }
  }

  lemma AcceptedSet(b: View, s: nat, e: nat)
    requires Valid(b) && b.next <= s < e <= RightEdge(b)
    ensures var (b', added) := AcceptBytes(b, s, e);
      && Received(b') == Received(b) + Span(s, e) == Span(0, b.next) + Positions(Merge(b.ranges, s, e))
      && Separated(b.next - 1, Merge(b.ranges, s, e))
      && Positions(b.ranges) <= Positions(Merge(b.ranges, s, e))
  {
    SeparatedWeaken(b.next - 1, b.next, b.ranges);
    MergeCorrect(b.next - 1, b.ranges, s, e);
    var merged := Merge(b.ranges, s, e);
    if merged[0].start == b.next {
      JoinPrefix(b.next, merged);
    }
  }

  lemma JoinPrefix(next: nat, ranges: seq<ByteRange>)
    requires ranges != [] && ranges[0].start == next <= ranges[0].end
    ensures Span(0, next) + Positions(ranges) == Span(0, ranges[0].end) + Positions(ranges[1..])
  {
    assert Span(0, next) + Span(next, ranges[0].end) == Span(0, ranges[0].end);
  }

  lemma NewPositions(b: View, merged: seq<ByteRange>)
    requires Valid(b) && Separated(b.next - 1, merged)
    requires Positions(b.ranges) <= Positions(merged)
    ensures |(Span(0, b.next) + Positions(merged)) - Received(b)| == TotalBytes(merged) - TotalBytes(b.ranges)
  {
    TotalBytesCounts(b.next, b.ranges);
    TotalBytesCounts(b.next - 1, merged);
    var news := Positions(merged) - Positions(b.ranges);
    assert (Span(0, b.next) + Positions(merged)) - Received(b) == news;
    assert Positions(merged) == Positions(b.ranges) + news;
  }

  /** The next expected position is the least missing one, the buffered count is the
      number of islands' positions, and it always stays below the capacity. */
  lemma NextIsLeastMissing(b: View)
    requires Valid(b)
    ensures b.next !in Received(b)
    ensures forall p :: 0 <= p < b.next ==> p in Received(b)
    ensures b.buffered == |Positions(b.ranges)|
    ensures 0 <= b.buffered < b.capacity
  {
    TotalBytesCounts(b.next, b.ranges);
    PositionsBelow(b.ranges, RightEdge(b));
    if RightEdge(b) <= b.next {
      assert Positions(b.ranges) == {};
    } else {
      SpanSize(b.next + 1, RightEdge(b));
      assert Positions(b.ranges) <= Span(b.next + 1, RightEdge(b));
      SubsetSize(Positions(b.ranges), Span(b.next + 1, RightEdge(b)));
    }
  }

  lemma SubsetSize(small: set<int>, big: set<int>)
    requires small <= big
    ensures |small| <= |big|
  {
    assert big == small + (big - small);
  }

  // ---------- The buffer as the source keeps it ----------

  class Buffer {
    var nextExpectedSeq: nat
    const capacity: nat
    var bufferedBytes: int
    var ranges: seq<ByteRange>

    function Value(): View
      reads this
    {
      View(nextExpectedSeq, capacity, bufferedBytes, ranges)
    }

    constructor (next: nat, capacity: nat)
      requires next <= MAX_UINT64 && 1 <= capacity <= MAX_UINT16
      ensures Value() == View(next, capacity, 0, [])
      ensures Valid(Value())
    {
      nextExpectedSeq, this.capacity, bufferedBytes, ranges := next, capacity, 0, [];
    }

    /** Counts each new byte once and advances the next expected position over
        every filled gap. */
    method Accept(start: nat, end: nat) returns (added: int)
      requires Valid(Value())
      modifies this
      ensures (Value(), added) == AcceptBytes(old(Value()), start, end)
      ensures Valid(Value())
    {
      hide Separated, EndsBy, TotalBytes, Merge, Release;
      ghost var b := Value();
      AcceptKeepsValid(b, start, end);
      var windowEnd := nextExpectedSeq + Min(capacity, MAX_UINT64 - nextExpectedSeq);
      var s := Max(start, nextExpectedSeq);
      var e := Min(end, windowEnd);
      if s >= e {
        return 0;
      }
      var first, afterLast, merged, newBytes := FindTouched(s, e);
      FirstTouched(b, s, e, first, afterLast, merged, b.buffered + newBytes);
      assert AcceptBytes(b, start, end) == (Release(b, Merge(b.ranges, s, e), b.buffered + newBytes), newBytes);
      bufferedBytes := bufferedBytes + newBytes;
      if merged.start == nextExpectedSeq {
        bufferedBytes := bufferedBytes - (merged.end - nextExpectedSeq);
        nextExpectedSeq := merged.end;
        ReplaceRanges(first, afterLast, None);
        assert ranges == b.ranges[afterLast..];
      } else {
        ReplaceRanges(first, afterLast, Some(merged));
      }
      return newBytes;
    }

    /** The buffered ranges overlapping or adjacent to `[s, e)`, what they merge to, and
        how many of the new bytes they do not hold yet. */
    method FindTouched(s: nat, e: nat)
      returns (first: nat, afterLast: nat, merged: ByteRange, newBytes: int)
      requires Separated(nextExpectedSeq, ranges) && s < e
      ensures first <= afterLast <= |ranges|
      ensures Merge(ranges, s, e) == ranges[..first] + [merged] + ranges[afterLast..]
      ensures newBytes == TotalBytes(Merge(ranges, s, e)) - TotalBytes(ranges)
    {
      first := SkipBefore(s, e);
      merged := ByteRange(s, e);
      newBytes := e - s;
      afterLast := first;
      ghost var target := Merge(ranges[first..], s, e);
      ghost var length := TotalBytes(ranges[first..]);
      while afterLast < |ranges| && ranges[afterLast].start <= merged.end
        invariant first <= afterLast <= |ranges|
        invariant Touched(ranges, first, afterLast, merged, s, e)
        invariant target == Merge(ranges[afterLast..], merged.start, merged.end)
        invariant merged.end - merged.start == newBytes + length - TotalBytes(ranges[afterLast..])
      {
        var existing := ranges[afterLast];
        var overlapStart := Max(s, existing.start);
        var overlapEnd := Min(e, existing.end);
        TouchStep(nextExpectedSeq, ranges, first, afterLast, merged, s, e);
        if overlapStart < overlapEnd {
          newBytes := newBytes - (overlapEnd - overlapStart);
        }
        merged := Hull(merged, existing);
        afterLast := afterLast + 1;
      }
      MergeAssembled(nextExpectedSeq, ranges, first, afterLast, merged, s, e);
    }

    method SkipBefore(s: nat, e: nat) returns (first: nat)
      ensures first <= |ranges|
      ensures Merge(ranges, s, e) == ranges[..first] + Merge(ranges[first..], s, e)
      ensures first < |ranges| ==> s <= ranges[first].end
    {
      first := 0;
      while first < |ranges| && ranges[first].end < s
        invariant first <= |ranges|
        invariant Merge(ranges, s, e) == ranges[..first] + Merge(ranges[first..], s, e)
      {
        SkipStep(ranges, first, s, e);
        first := first + 1;
      }
    }

    /** Replaces `ranges[first..afterLast]` with `merged`, shifting the rest in place. */
    method ReplaceRanges(first: nat, afterLast: nat, merged: Option<ByteRange>)
      requires first <= afterLast <= |ranges|
      modifies this`ranges
      ensures ranges == old(ranges)[..first] + (if merged.Some? then [merged.value] else []) + old(ranges)[afterLast..]
    {
      if first == afterLast && merged.Some? {
        ranges := ranges + [ByteRange(0, 0)];
        ranges := ranges[..first + 1] + ranges[first..|ranges| - 1];
        ranges := ranges[first := merged.value];
        return;
      }
      var writeAt := first;
      if merged.Some? {
        ranges := ranges[writeAt := merged.value];
        writeAt := writeAt + 1;
      }
      ranges := ranges[..writeAt] + ranges[afterLast..];
    }
  }

  lemma SkipStep(ranges: seq<ByteRange>, first: nat, s: nat, e: nat)
    requires first < |ranges| && ranges[first].end < s
    ensures ranges[..first] + Merge(ranges[first..], s, e) == ranges[..first + 1] + Merge(ranges[first + 1..], s, e)
  {
    assert ranges[first..][1..] == ranges[first + 1..];
    assert ranges[..first + 1] == ranges[..first] + [ranges[first]];
  }

  lemma {:induction false} TotalBytesAppend(left: seq<ByteRange>, right: seq<ByteRange>)
    ensures TotalBytes(left + right) == TotalBytes(left) + TotalBytes(right)
    decreases |left|
  {
    if left == [] {
      assert left + right == right;
    } else {
      assert (left + right)[1..] == left[1..] + right;
      TotalBytesAppend(left[1..], right);
    }
  }

  /** The loop state of `FindTouched`: `merged` is `[s, e)` extended by `ranges[first..k]`. */
  ghost predicate Touched(ranges: seq<ByteRange>, first: nat, k: nat, merged: ByteRange, s: nat, e: nat)
    requires first <= k <= |ranges|
  {
    if k == first then merged == ByteRange(s, e)
    else merged == ByteRange(Min(s, ranges[first].start), Max(e, ranges[k - 1].end))
  }

  /** How many positions of `[s, e)` the range `r` already holds. */
  function Overlap(s: nat, e: nat, r: ByteRange): nat {
    Max(0, Min(e, r.end) - Max(s, r.start))
  }

  function Hull(a: ByteRange, b: ByteRange): ByteRange {
    ByteRange(Min(a.start, b.start), Max(a.end, b.end))
  }

  /** Only an arrival merged at the front can start at the next expected position. */
  lemma FirstTouched(b: View, s: nat, e: nat, first: nat, afterLast: nat, merged: ByteRange, buffered: int)
    requires Valid(b) && b.next <= s < e
    requires first <= afterLast <= |b.ranges|
    requires Merge(b.ranges, s, e) == b.ranges[..first] + [merged] + b.ranges[afterLast..]
    ensures merged.start == b.next ==> first == 0
    ensures Release(b, Merge(b.ranges, s, e), buffered)
         == (if merged.start == b.next
             then View(merged.end, b.capacity, buffered - (merged.end - b.next), b.ranges[afterLast..])
             else View(b.next, b.capacity, buffered, b.ranges[..first] + [merged] + b.ranges[afterLast..]))
  {
    SeparatedWeaken(b.next - 1, b.next, b.ranges);
    MergeCorrect(b.next - 1, b.ranges, s, e);
    var whole := Merge(b.ranges, s, e);
    SeparatedMembers(b.next - 1, whole);
    SeparatedMembers(b.next, b.ranges);
    assert whole[first] == merged;
    if first > 0 {
      assert whole[0] == b.ranges[0];
      assert whole[0].end < whole[first].start;
    }
  }

  lemma TouchStep(low: int, ranges: seq<ByteRange>, first: nat, k: nat, merged: ByteRange, s: nat, e: nat)
    requires first <= k < |ranges| && s < e && s <= ranges[first].end
    requires Separated(low, ranges)
    requires Touched(ranges, first, k, merged, s, e) && ranges[k].start <= merged.end
    ensures var larger := Hull(merged, ranges[k]);
      && Touched(ranges, first, k + 1, larger, s, e)
      && Merge(ranges[k..], merged.start, merged.end) == Merge(ranges[k + 1..], larger.start, larger.end)
      && larger.end - larger.start == merged.end - merged.start + ranges[k].end - ranges[k].start
                                      - Overlap(s, e, ranges[k])
    ensures TotalBytes(ranges[k..]) == ranges[k].end - ranges[k].start + TotalBytes(ranges[k + 1..])
  {
    SeparatedMembers(low, ranges);
    assert ranges[k..][1..] == ranges[k + 1..];
    if first < k {
      assert ranges[first].end <= ranges[k - 1].end < ranges[k].start;
    }
  }

  lemma MergeAssembled(low: int, ranges: seq<ByteRange>, first: nat, afterLast: nat, merged: ByteRange, s: nat, e: nat)
    requires first <= afterLast <= |ranges| && s < e
    requires Separated(low, ranges) && Touched(ranges, first, afterLast, merged, s, e)
    requires Merge(ranges, s, e) == ranges[..first] + Merge(ranges[first..], s, e)
    requires Merge(ranges[first..], s, e) == Merge(ranges[afterLast..], merged.start, merged.end)
    requires afterLast < |ranges| ==> merged.end < ranges[afterLast].start
    ensures Merge(ranges, s, e) == ranges[..first] + [merged] + ranges[afterLast..]
    ensures TotalBytes(Merge(ranges, s, e)) - TotalBytes(ranges)
         == merged.end - merged.start + TotalBytes(ranges[afterLast..]) - TotalBytes(ranges[first..])
  {
    var tail := [merged] + ranges[afterLast..];
    assert Merge(ranges[afterLast..], merged.start, merged.end) == tail by {
      SeparatedMembers(low, ranges);
    }
    assert ranges == ranges[..first] + ranges[first..];
    TotalBytesAppend(ranges[..first], ranges[first..]);
    TotalBytesAppend(ranges[..first], tail);
    assert tail[1..] == ranges[afterLast..];
    assert ranges[..first] + tail == ranges[..first] + [merged] + ranges[afterLast..];
  }
}
