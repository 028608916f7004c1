/** The SACK report of a receiver: which buffered ranges an ACK repeats, and in what order
    (section 4 of RFC 2018). */
module SackReport {
  import opened Basics
  import opened Packets
  import RB = ReceiveBuffer

  function BlockOf(r: RB.ByteRange): SACKBlock {
    SACKBlock(r.start, r.end)
  }

  /** `block` joins the report unless it is already there or the report is full. */
  function Include(report: seq<SACKBlock>, block: SACKBlock): seq<SACKBlock> {
    if block in report || |report| >= MAX_SACK_BLOCKS then report else report + [block]
  }

  /** The first buffered range overlapping `[start, end)`. */
  function FirstOverlap(ranges: seq<RB.ByteRange>, start: int, end: int): Option<RB.ByteRange> {
    if ranges == [] then None
    else if ranges[0].start < end && ranges[0].end > start then Some(ranges[0])
    else FirstOverlap(ranges[1..], start, end)
  }

  function IncludeOverlap(report: seq<SACKBlock>, ranges: seq<RB.ByteRange>, start: int, end: int): seq<SACKBlock> {
    var hit := FirstOverlap(ranges, start, end);
    if hit.None? then report else Include(report, BlockOf(hit.value))
  }

  function IncludePrevious(report: seq<SACKBlock>, ranges: seq<RB.ByteRange>, previous: seq<SACKBlock>): seq<SACKBlock>
    decreases |previous|
  {
    if previous == [] || |report| == MAX_SACK_BLOCKS then report
    else IncludePrevious(IncludeOverlap(report, ranges, previous[0].start, previous[0].end), ranges, previous[1..])
  }

  function IncludeAll(report: seq<SACKBlock>, ranges: seq<RB.ByteRange>): seq<SACKBlock>
    decreases |ranges|
  {
    if ranges == [] || |report| == MAX_SACK_BLOCKS then report
    else IncludeAll(Include(report, BlockOf(ranges[0])), ranges[1..])
  }

  /** The report after a segment `[start, end)`: its own range, then the recent ones, then the rest. */
  function Report(ranges: seq<RB.ByteRange>, recent: seq<SACKBlock>, start: int, end: int): seq<SACKBlock> {
    IncludeAll(IncludePrevious(IncludeOverlap([], ranges, start, end), ranges, recent), ranges)
  }

  // ---------- What a report says ----------

  ghost function Blocks(ranges: seq<RB.ByteRange>): set<SACKBlock> {
    set r | r in ranges :: BlockOf(r)
  }

  ghost function Elements(report: seq<SACKBlock>): set<SACKBlock> {
    set b | b in report
  }

  ghost predicate Distinct(report: seq<SACKBlock>) {
    forall i, j :: 0 <= i < j < |report| ==> report[i] != report[j]
  }

  /** Distinct blocks, all of them current ranges, at most four. */
  ghost predicate Sound(report: seq<SACKBlock>, ranges: seq<RB.ByteRange>) {
    Distinct(report) && Elements(report) <= Blocks(ranges) && |report| <= MAX_SACK_BLOCKS
  }

  /** A sound report that leaves a range out only when it is full. */
  ghost predicate Complete(report: seq<SACKBlock>, ranges: seq<RB.ByteRange>) {
    Sound(report, ranges) && |report| == Min(MAX_SACK_BLOCKS, |ranges|)
  }

  lemma IncludeSound(report: seq<SACKBlock>, ranges: seq<RB.ByteRange>, block: SACKBlock)
    requires Sound(report, ranges) && block in Blocks(ranges)
    ensures Sound(Include(report, block), ranges)
    ensures report <= Include(report, block)
    ensures |Include(report, block)| < MAX_SACK_BLOCKS ==> block in Include(report, block)
  {
  }

  lemma {:induction false} FirstOverlapMember(ranges: seq<RB.ByteRange>, start: int, end: int)
    ensures var hit := FirstOverlap(ranges, start, end);
      && (hit.Some? ==> hit.value in ranges && hit.value.start < end && hit.value.end > start)
      && (hit.None? ==> forall r :: r in ranges ==> !(r.start < end && r.end > start))
    decreases |ranges|
  {
    if ranges != [] {
      FirstOverlapMember(ranges[1..], start, end);
      assert forall r :: r in ranges <==> r == ranges[0] || r in ranges[1..];
    }
  }

  lemma IncludeOverlapSound(report: seq<SACKBlock>, ranges: seq<RB.ByteRange>, start: int, end: int)
    requires Sound(report, ranges)
    ensures Sound(IncludeOverlap(report, ranges, start, end), ranges)
    ensures report <= IncludeOverlap(report, ranges, start, end)
  {
    FirstOverlapMember(ranges, start, end);
    var hit := FirstOverlap(ranges, start, end);
    if hit.Some? {
      IncludeSound(report, ranges, BlockOf(hit.value));
    }
  }

  lemma {:induction false} IncludePreviousSound(report: seq<SACKBlock>, ranges: seq<RB.ByteRange>, previous: seq<SACKBlock>)
    requires Sound(report, ranges)
    ensures Sound(IncludePrevious(report, ranges, previous), ranges)
    ensures report <= IncludePrevious(report, ranges, previous)
    decreases |previous|
  {
    if previous != [] && |report| < MAX_SACK_BLOCKS {
      var next := IncludeOverlap(report, ranges, previous[0].start, previous[0].end);
      IncludeOverlapSound(report, ranges, previous[0].start, previous[0].end);
      IncludePreviousSound(next, ranges, previous[1..]);
    }
  }

  lemma {:induction false} IncludeAllSound(report: seq<SACKBlock>, ranges: seq<RB.ByteRange>, all: seq<RB.ByteRange>)
    requires Sound(report, all) && Blocks(ranges) <= Blocks(all)
    ensures var r := IncludeAll(report, ranges);
      && Sound(r, all) && report <= r
      && (|r| < MAX_SACK_BLOCKS ==> Blocks(ranges) <= Elements(r))
    decreases |ranges|
  {
    if ranges != [] && |report| < MAX_SACK_BLOCKS {
      assert BlockOf(ranges[0]) in Blocks(ranges);
      IncludeSound(report, all, BlockOf(ranges[0]));
      assert Blocks(ranges) == {BlockOf(ranges[0])} + Blocks(ranges[1..]) by {
        assert forall r :: r in ranges <==> r == ranges[0] || r in ranges[1..];
      }
      IncludeAllSound(Include(report, BlockOf(ranges[0])), ranges[1..], all);
    }
  }

  lemma {:induction false} DistinctCount(report: seq<SACKBlock>)
    requires Distinct(report)
    ensures |Elements(report)| == |report|
    decreases |report|
  {
    if report != [] {
      DistinctCount(report[1..]);
      assert Elements(report) == {report[0]} + Elements(report[1..]);
    }
  }

  lemma {:induction false} BlocksCount(low: int, ranges: seq<RB.ByteRange>)
    requires RB.Separated(low, ranges)
    ensures |Blocks(ranges)| == |ranges|
    ensures forall b :: b in Blocks(ranges) ==> low < b.start < b.end
    decreases |ranges|
  {
    if ranges != [] {
      BlocksCount(ranges[0].end, ranges[1..]);
      assert Blocks(ranges) == {BlockOf(ranges[0])} + Blocks(ranges[1..]) by {
        assert forall r :: r in ranges <==> r == ranges[0] || r in ranges[1..];
      }
    }
  }

  /** Every report is truthful: distinct current ranges, exactly `min(4, ranges)` of them,
      the triggering segment's range first, whatever was reported before. */
  lemma ReportTruthful(low: int, ranges: seq<RB.ByteRange>, recent: seq<SACKBlock>, start: int, end: int)
    requires RB.Separated(low, ranges)
    ensures var r := Report(ranges, recent, start, end);
      && Complete(r, ranges)
      && (forall b :: b in r ==> low < b.start < b.end)
      && (FirstOverlap(ranges, start, end).Some? ==>
            r != [] && r[0] == BlockOf(FirstOverlap(ranges, start, end).value))
  {
    var own := IncludeOverlap([], ranges, start, end);
    IncludeOverlapSound([], ranges, start, end);
    var known := IncludePrevious(own, ranges, recent);
    IncludePreviousSound(own, ranges, recent);
    IncludeAllSound(known, ranges, ranges);
    CompleteCount(low, ranges, Report(ranges, recent, start, end));
  }

  lemma CompleteCount(low: int, ranges: seq<RB.ByteRange>, r: seq<SACKBlock>)
    requires RB.Separated(low, ranges) && Sound(r, ranges)
    requires |r| < MAX_SACK_BLOCKS ==> Blocks(ranges) <= Elements(r)
    ensures Complete(r, ranges)
    ensures forall b :: b in r ==> low < b.start < b.end
  {
    DistinctCount(r);
    BlocksCount(low, ranges);
    assert forall b :: b in r ==> b in Elements(r);
    assert Blocks(ranges) == Elements(r) + (Blocks(ranges) - Elements(r));
  }

  // ---------- In what order ----------

  /** Where `recent` first mentions the range that is now `block`; its length if nowhere. */
  function FirstMention(ranges: seq<RB.ByteRange>, recent: seq<SACKBlock>, block: SACKBlock): (i: nat)
    ensures i <= |recent|
  {
    if recent == [] then 0
    else
      var heir := FirstOverlap(ranges, recent[0].start, recent[0].end);
      if heir.Some? && BlockOf(heir.value) == block then 0 else 1 + FirstMention(ranges, recent[1..], block)
  }

  function PositionOf(ranges: seq<RB.ByteRange>, block: SACKBlock): (i: nat)
    ensures i <= |ranges|
  {
    if ranges == [] || BlockOf(ranges[0]) == block then 0 else 1 + PositionOf(ranges[1..], block)
  }

  /** The age of a block: the triggering range first, then what was reported before, the latest
      first, then the ranges never reported, by position. */
  function Age(ranges: seq<RB.ByteRange>, recent: seq<SACKBlock>, start: int, end: int, block: SACKBlock): nat {
    var own := FirstOverlap(ranges, start, end);
    var mention := FirstMention(ranges, recent, block);
    if own.Some? && BlockOf(own.value) == block then 0
    else if mention < |recent| then 1 + mention
    else 1 + |recent| + PositionOf(ranges, block)
  }

  /** Younger blocks stand before older ones, and only the oldest are left out. */
  ghost predicate ByAge(report: seq<SACKBlock>, ranges: seq<RB.ByteRange>, age: SACKBlock -> nat) {
    && (forall i, j :: 0 <= i < j < |report| ==> age(report[i]) < age(report[j]))
    && (forall b, i :: b in Blocks(ranges) && b !in report && 0 <= i < |report| ==> age(report[i]) < age(b))
  }

  /** So far only ages below `limit` were looked at. */
  ghost predicate ByAgeBelow(report: seq<SACKBlock>, ranges: seq<RB.ByteRange>, age: SACKBlock -> nat, limit: nat) {
    && |report| <= MAX_SACK_BLOCKS
    && (forall i :: 0 <= i < |report| ==> age(report[i]) < limit)
    && (forall i, j :: 0 <= i < j < |report| ==> age(report[i]) < age(report[j]))
    && (forall b :: b in Blocks(ranges) && b !in report && age(b) < limit ==>
          |report| == MAX_SACK_BLOCKS && forall i :: 0 <= i < |report| ==> age(report[i]) < age(b))
  }

  /** The block of age `limit`, or none, is considered next. */
  lemma Considered(report: seq<SACKBlock>, ranges: seq<RB.ByteRange>, age: SACKBlock -> nat, limit: nat, hit: Option<SACKBlock>)
    requires ByAgeBelow(report, ranges, age, limit)
    requires forall b :: b in Blocks(ranges) && age(b) == limit ==> hit == Some(b)
    requires hit.Some? ==> hit.value in Blocks(ranges) && age(hit.value) <= limit
    ensures ByAgeBelow(if hit.None? then report else Include(report, hit.value), ranges, age, limit + 1)
  {
  }

  lemma FullStays(report: seq<SACKBlock>, ranges: seq<RB.ByteRange>, age: SACKBlock -> nat, limit: nat, later: nat)
    requires ByAgeBelow(report, ranges, age, limit) && |report| == MAX_SACK_BLOCKS && limit <= later
    ensures ByAgeBelow(report, ranges, age, later)
  {
  }

  lemma {:induction false} MentionUnique(ranges: seq<RB.ByteRange>, recent: seq<SACKBlock>, block: SACKBlock, i: nat)
    requires i < |recent|
    ensures var heir := FirstOverlap(ranges, recent[i].start, recent[i].end);
      && (FirstMention(ranges, recent, block) == i ==> heir.Some? && BlockOf(heir.value) == block)
      && (heir.Some? && BlockOf(heir.value) == block ==> FirstMention(ranges, recent, block) <= i)
    decreases i
  {
    if i > 0 {
      MentionUnique(ranges, recent[1..], block, i - 1);
    }
  }

  lemma {:induction false} PositionUnique(ranges: seq<RB.ByteRange>, block: SACKBlock, i: nat)
    requires i < |ranges|
    ensures PositionOf(ranges, block) == i ==> BlockOf(ranges[i]) == block
    ensures BlockOf(ranges[i]) == block ==> PositionOf(ranges, block) <= i
    decreases i
  {
    if i > 0 {
      PositionUnique(ranges[1..], block, i - 1);
    }
  }

  ghost predicate IsAge(age: SACKBlock -> nat, ranges: seq<RB.ByteRange>, recent: seq<SACKBlock>, start: int, end: int) {
    forall b :: age(b) == Age(ranges, recent, start, end, b)
  }

  /** The age at which a mention, or a range, comes up is that of its block or of none. */
  lemma AgeOfMention(age: SACKBlock -> nat, ranges: seq<RB.ByteRange>, recent: seq<SACKBlock>, start: int, end: int, k: nat)
    requires IsAge(age, ranges, recent, start, end) && k < |recent|
    ensures var heir := FirstOverlap(ranges, recent[k].start, recent[k].end);
      && (forall b :: age(b) == 1 + k ==> heir.Some? && BlockOf(heir.value) == b)
      && (heir.Some? ==> BlockOf(heir.value) in Blocks(ranges) && age(BlockOf(heir.value)) <= 1 + k)
  {
    var heir := FirstOverlap(ranges, recent[k].start, recent[k].end);
    FirstOverlapMember(ranges, recent[k].start, recent[k].end);
    forall b ensures age(b) == 1 + k ==> heir.Some? && BlockOf(heir.value) == b {
      MentionUnique(ranges, recent, b, k);
    }
    if heir.Some? {
      MentionUnique(ranges, recent, BlockOf(heir.value), k);
    }
  }

  lemma AgeOfRange(age: SACKBlock -> nat, ranges: seq<RB.ByteRange>, recent: seq<SACKBlock>, start: int, end: int, k: nat)
    requires IsAge(age, ranges, recent, start, end) && k < |ranges|
    ensures forall b :: age(b) == 1 + |recent| + k ==> BlockOf(ranges[k]) == b
    ensures BlockOf(ranges[k]) in Blocks(ranges) && age(BlockOf(ranges[k])) <= 1 + |recent| + k
  {
    forall b ensures age(b) == 1 + |recent| + k ==> BlockOf(ranges[k]) == b {
      PositionUnique(ranges, b, k);
    }
    PositionUnique(ranges, BlockOf(ranges[k]), k);
  }

  lemma {:induction false} PreviousByAge(report: seq<SACKBlock>, ranges: seq<RB.ByteRange>, recent: seq<SACKBlock>,
                                         start: int, end: int, age: SACKBlock -> nat, k: nat)
    requires IsAge(age, ranges, recent, start, end) && k <= |recent| && ByAgeBelow(report, ranges, age, 1 + k)
    ensures ByAgeBelow(IncludePrevious(report, ranges, recent[k..]), ranges, age, 1 + |recent|)
    decreases |recent| - k
  {
    hide IsAge, ByAgeBelow;
    if k < |recent| && |report| != MAX_SACK_BLOCKS {
      AgeOfMention(age, ranges, recent, start, end, k);
      var heir := FirstOverlap(ranges, recent[k].start, recent[k].end);
      Considered(report, ranges, age, 1 + k, if heir.Some? then Some(BlockOf(heir.value)) else None);
      assert recent[k..][1..] == recent[k + 1..] && recent[k..][0] == recent[k];
      PreviousByAge(IncludeOverlap(report, ranges, recent[k].start, recent[k].end), ranges, recent, start, end, age, k + 1);
    } else if k < |recent| {
      FullStays(report, ranges, age, 1 + k, 1 + |recent|);
    }
  }

  lemma {:induction false} AllByAge(report: seq<SACKBlock>, ranges: seq<RB.ByteRange>, recent: seq<SACKBlock>,
                                    start: int, end: int, age: SACKBlock -> nat, k: nat)
    requires IsAge(age, ranges, recent, start, end) && k <= |ranges| && ByAgeBelow(report, ranges, age, 1 + |recent| + k)
    ensures ByAgeBelow(IncludeAll(report, ranges[k..]), ranges, age, 1 + |recent| + |ranges|)
    decreases |ranges| - k
  {
    hide IsAge, ByAgeBelow;
    if k < |ranges| && |report| != MAX_SACK_BLOCKS {
      AgeOfRange(age, ranges, recent, start, end, k);
      Considered(report, ranges, age, 1 + |recent| + k, Some(BlockOf(ranges[k])));
      assert ranges[k..][1..] == ranges[k + 1..] && ranges[k..][0] == ranges[k];
      AllByAge(Include(report, BlockOf(ranges[k])), ranges, recent, start, end, age, k + 1);
    } else if k < |ranges| {
      FullStays(report, ranges, age, 1 + |recent| + k, 1 + |recent| + |ranges|);
    }
  }

  /** A report lists the ranges by age and leaves out only the oldest: with `ReportTruthful` it is
      the only such sequence. */
  lemma ReportByAge(ranges: seq<RB.ByteRange>, recent: seq<SACKBlock>, start: int, end: int)
    ensures ByAge(Report(ranges, recent, start, end), ranges, b => Age(ranges, recent, start, end, b))
  {
    hide Age, IncludePrevious, IncludeAll;
    var age := b => Age(ranges, recent, start, end, b);
    OwnByAge(ranges, recent, start, end, age);
    var first := IncludeOverlap([], ranges, start, end);
    PreviousByAge(first, ranges, recent, start, end, age, 0);
    assert recent[0..] == recent && ranges[0..] == ranges;
    AllByAge(IncludePrevious(first, ranges, recent), ranges, recent, start, end, age, 0);
    AgesEnd(ranges, recent, start, end, age);
  }

  lemma OwnByAge(ranges: seq<RB.ByteRange>, recent: seq<SACKBlock>, start: int, end: int, age: SACKBlock -> nat)
    requires IsAge(age, ranges, recent, start, end)
    ensures ByAgeBelow(IncludeOverlap([], ranges, start, end), ranges, age, 1)
  {
    FirstOverlapMember(ranges, start, end);
    var own := FirstOverlap(ranges, start, end);
    Considered([], ranges, age, 0, if own.Some? then Some(BlockOf(own.value)) else None);
  }

  lemma AgesEnd(ranges: seq<RB.ByteRange>, recent: seq<SACKBlock>, start: int, end: int, age: SACKBlock -> nat)
    requires IsAge(age, ranges, recent, start, end)
    ensures forall b :: b in Blocks(ranges) ==> age(b) < 1 + |recent| + |ranges|
  {
    forall b | b in Blocks(ranges) ensures age(b) < 1 + |recent| + |ranges| {
      var r :| r in ranges && BlockOf(r) == b;
      var k :| 0 <= k < |ranges| && ranges[k] == r;
      AgeOfRange(age, ranges, recent, start, end, k);
    }
  }

  // ---------- The report as the source builds it ----------

  class Reporter {
    var sackRecent: array<SACKBlock>
    var sackRecentCount: nat

    ghost predicate Valid()
      reads this
    {
      sackRecent.Length == MAX_SACK_BLOCKS && sackRecentCount <= MAX_SACK_BLOCKS
    }

    function Current(): seq<SACKBlock>
      reads this, sackRecent
      requires Valid()
    {
      sackRecent[..sackRecentCount]
    }

    constructor ()
      ensures Valid() && Current() == [] && fresh(sackRecent)
    {
      sackRecent := new SACKBlock[MAX_SACK_BLOCKS](_ => SACKBlock(0, 0));
      sackRecentCount := 0;
    }

    /** Adds one block to a report under construction, once and while there is room. */
    static method IncludeBlock(recent: array<SACKBlock>, count: nat, block: SACKBlock) returns (grown: nat)
      requires recent.Length == MAX_SACK_BLOCKS && count <= MAX_SACK_BLOCKS
      modifies recent
      ensures count <= grown <= MAX_SACK_BLOCKS
      ensures recent[..grown] == Include(old(recent[..count]), block)
    {
      for k := 0 to count
        invariant block !in recent[..k]
      {
        if recent[k] == block {
          assert block in recent[..count];
          return count;
        }
      }
      if count < recent.Length {
        recent[count] := block;
        return count + 1;
      }
      return count;
    }

    /** Adds the first buffered range overlapping `[start, end)`, if there is one. */
    static method IncludeFirst(recent: array<SACKBlock>, count: nat, ranges: seq<RB.ByteRange>, start: int, end: int)
      returns (grown: nat)
      requires recent.Length == MAX_SACK_BLOCKS && count <= MAX_SACK_BLOCKS
      modifies recent
      ensures count <= grown <= MAX_SACK_BLOCKS
      ensures recent[..grown] == IncludeOverlap(old(recent[..count]), ranges, start, end)
    {
      for k := 0 to |ranges|
        invariant FirstOverlap(ranges, start, end) == FirstOverlap(ranges[k..], start, end)
        invariant recent[..count] == old(recent[..count])
      {
        assert ranges[k..][1..] == ranges[k + 1..];
        if ranges[k].start < end && ranges[k].end > start {
          grown := IncludeBlock(recent, count, BlockOf(ranges[k]));
          return;
        }
      }
      return count;
    }

    /** The whole report after one arrival. */
    method RecordArrival(ranges: seq<RB.ByteRange>, start: int, end: int)
      requires Valid()
      modifies this
      ensures Valid() && fresh(sackRecent)
      ensures Current() == Report(ranges, old(Current()), start, end)
    {
      var recent := new SACKBlock[MAX_SACK_BLOCKS](_ => SACKBlock(0, 0));
      var count := IncludeFirst(recent, 0, ranges, start, end);
      var previous := sackRecent[..sackRecentCount];
      ghost var withPrevious := IncludePrevious(recent[..count], ranges, previous);
      var k := 0;
      while k < |previous| && count != MAX_SACK_BLOCKS
        invariant k <= |previous| && count <= MAX_SACK_BLOCKS
        invariant withPrevious == IncludePrevious(recent[..count], ranges, previous[k..])
      {
        assert previous[k..][1..] == previous[k + 1..];
        count := IncludeFirst(recent, count, ranges, previous[k].start, previous[k].end);
        k := k + 1;
      }
      k := 0;
      assert recent[..count] == withPrevious;
      while k < |ranges| && count != MAX_SACK_BLOCKS
        invariant k <= |ranges| && count <= MAX_SACK_BLOCKS
        invariant IncludeAll(withPrevious, ranges) == IncludeAll(recent[..count], ranges[k..])
      {
        assert ranges[k..][1..] == ranges[k + 1..];
        count := IncludeBlock(recent, count, BlockOf(ranges[k]));
        k := k + 1;
      }
      sackRecent, sackRecentCount := recent, count;
    }
  }
}
