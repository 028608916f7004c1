/** The sender's unconfirmed segments: gap-free, trimmed from the front by each cumulative ACK. */
module SendBuffer {
  import opened Basics

  /** One stored segment; a repeat carries the acknowledgement it was first sent with. */
  datatype Segment = Segment(seqNo: nat, size: nat, ack: nat)

  /** Consecutive non-empty segments covering `[from, to)` without a gap. */
  ghost predicate Tiles(segments: seq<Segment>, from: int, to: int)
    decreases |segments|
  {
    if segments == [] then from == to
    else segments[0].seqNo == from && segments[0].size > 0
         && Tiles(segments[1..], from + segments[0].size, to)
  }

  /** What one cumulative ACK leaves: whole segments go, a straddled one keeps its suffix. */
  function Acknowledged(segments: seq<Segment>, ack: nat): seq<Segment>
    decreases |segments|
  {
    if segments == [] || ack <= segments[0].seqNo then segments
    else
      var end := segments[0].seqNo + segments[0].size;
      if ack < end then [Segment(ack, end - ack, segments[0].ack)] + segments[1..]
      else Acknowledged(segments[1..], ack)
  }

  lemma {:induction false} TilesOrdered(segments: seq<Segment>, from: int, to: int)
    requires Tiles(segments, from, to)
    ensures from <= to
    ensures segments == [] <==> from == to
    decreases |segments|
  {
    if segments != [] {
      TilesOrdered(segments[1..], from + segments[0].size, to);
    }
  }

  /** Trimming keeps the tiling: exactly the bytes from `ack` on stay pending. */
  lemma {:induction false} AcknowledgedTiles(segments: seq<Segment>, from: nat, to: nat, ack: nat)
    requires Tiles(segments, from, to) && from <= ack <= to
    ensures Tiles(Acknowledged(segments, ack), ack, to)
    decreases |segments|
  {
    TilesOrdered(segments, from, to);
    if segments != [] && ack > from {
      var end := segments[0].seqNo + segments[0].size;
      TilesOrdered(segments[1..], end, to);
      if ack < end {
        var rest := [Segment(ack, end - ack, segments[0].ack)] + segments[1..];
        assert rest[1..] == segments[1..];
      } else {
        AcknowledgedTiles(segments[1..], end, to, ack);
      }
    }
  }

  lemma {:induction false} AppendTiles(segments: seq<Segment>, from: nat, to: nat, size: nat, stamp: nat)
    requires Tiles(segments, from, to) && size > 0
    ensures Tiles(segments + [Segment(to, size, stamp)], from, to + size)
    decreases |segments|
  {
    if segments == [] {
      assert [Segment(to, size, stamp)][1..] == [];
    } else {
      TilesOrdered(segments, from, to);
      assert (segments + [Segment(to, size, stamp)])[1..] == segments[1..] + [Segment(to, size, stamp)];
      AppendTiles(segments[1..], from + segments[0].size, to, size, stamp);
    }
  }

  /** Every stored segment carries an acknowledgement between `low` and `high`. */
  ghost predicate Stamped(segments: seq<Segment>, low: int, high: int) {
    forall k :: 0 <= k < |segments| ==> low <= segments[k].ack <= high
  }

  lemma {:induction false} AcknowledgedStamped(segments: seq<Segment>, ack: nat, low: int, high: int)
    requires Stamped(segments, low, high)
    ensures Stamped(Acknowledged(segments, ack), low, high)
    decreases |segments|
  {
    if segments != [] && ack >= segments[0].seqNo + segments[0].size {
      AcknowledgedStamped(segments[1..], ack, low, high);
    }
  }

  // ---------- The buffer as the source keeps it ----------

  const EMPTY_SLOT := Segment(0, 0, 0)

  class Buffer {
    var segments: seq<Segment>
    var firstPendingIndex: nat

    /** The consumed prefix is shorter than what is pending, or gone. */
    ghost predicate Valid()
      reads this
    {
      firstPendingIndex == 0 || 2 * firstPendingIndex < |segments|
    }

    function Pending(): seq<Segment>
      reads this
      requires Valid()
    {
      segments[firstPendingIndex..]
    }

    constructor ()
      ensures Valid() && Pending() == []
    {
      segments, firstPendingIndex := [], 0;
    }

    predicate HasPending()
      reads this
    {
      firstPendingIndex < |segments|
    }

    method Append(segment: Segment)
      requires Valid()
      modifies this
      ensures Valid() && Pending() == old(Pending()) + [segment]
    {
      segments := segments + [segment];
    }

    /** Releases, trims and lazily compacts; the pending segments are exactly the
        functional result, whatever prefix was consumed before. */
    method Acknowledge(ack: nat)
      requires Valid()
      modifies this
      ensures Valid() && Pending() == Acknowledged(old(Pending()), ack)
    {
      ghost var before := Pending();
      while HasPending()
        invariant firstPendingIndex <= |segments|
        invariant Acknowledged(segments[firstPendingIndex..], ack) == Acknowledged(before, ack)
        decreases |segments| - firstPendingIndex
      {
        var packet := segments[firstPendingIndex];
        assert segments[firstPendingIndex..][1..] == segments[firstPendingIndex + 1..];
        if ack <= packet.seqNo {
          break;
        }
        var segmentEnd := packet.seqNo + packet.size;
        if ack < segmentEnd {
          segments := segments[firstPendingIndex := Segment(ack, segmentEnd - ack, packet.ack)];
          break;
        }
        segments := segments[firstPendingIndex := EMPTY_SLOT];
        firstPendingIndex := firstPendingIndex + 1;
      }
      assert segments[firstPendingIndex..] == Acknowledged(before, ack);
      var remaining := |segments| - firstPendingIndex;
      if remaining == 0 {
        segments, firstPendingIndex := [], 0;
      } else if firstPendingIndex >= remaining {
        segments, firstPendingIndex := segments[firstPendingIndex..], 0;
      }
    }

    method Reset()
      modifies this
      ensures Valid() && Pending() == []
    {
      segments, firstPendingIndex := [], 0;
    }
  }
}
