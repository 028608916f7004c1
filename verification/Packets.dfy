/** TCP segments as both endpoints read them. */
module Packets {
  import opened Basics

  datatype Flags = Flags(syn: bool, fin: bool, rst: bool, ack: bool, psh: bool, ece: bool, cwr: bool)

  const NO_FLAGS := Flags(false, false, false, false, false, false, false)
  const ACK_FLAGS := NO_FLAGS.(ack := true)
  const DATA_FLAGS := ACK_FLAGS.(psh := true)
  const FIN_FLAGS := ACK_FLAGS.(fin := true)

  /** One stretch that the receiver holds beyond a gap; `end` is the first position behind it. */
  datatype SACKBlock = SACKBlock(start: nat, end: nat)

  const MAX_SACK_BLOCKS: nat := 4

  datatype Packet = Packet(
    flags: Flags,
    size: int,
    seqNo: nat,
    ackNo: nat,
    window: nat,
    sackPermitted: bool,
    sackBlocks: seq<SACKBlock>,
    ce: bool)

  function Segment(flags: Flags, size: int, seqNo: nat, ackNo: nat): Packet {
    Packet(flags, size, seqNo, ackNo, 0, false, [], false)
  }

  /** The position after this packet, or nothing when the range leaves 64 bits. */
  function SequenceEnd(p: Packet): Option<nat> {
    if p.size < 0 then None else
      var length := p.size + (if p.flags.syn then 1 else 0) + (if p.flags.fin then 1 else 0);
      if length > MAX_UINT64 - p.seqNo then None else Some(p.seqNo + length)
  }

  predicate ValidSACKOptions(p: Packet) {
    if p.sackPermitted && !p.flags.syn then false
    else if p.sackBlocks == [] then true
    else
      && |p.sackBlocks| <= MAX_SACK_BLOCKS && p.flags.ack && !p.flags.syn && !p.flags.rst
      && forall block :: block in p.sackBlocks ==> block.start < block.end
  }

  /** SACK permission outside a SYN, more than four blocks, an empty one, or blocks on anything but
      an ACK. */
  ghost predicate OddOptions(p: Packet) {
    || (p.sackPermitted && !p.flags.syn) || |p.sackBlocks| > 4
    || (p.sackBlocks != [] && (!p.flags.ack || p.flags.syn || p.flags.rst))
    || exists b :: b in p.sackBlocks && b.start >= b.end
  }

  /** A negative length, or an end beyond the 64-bit positions. */
  predicate LeavesPositions(p: Packet) {
    p.size < 0 || p.seqNo + p.size + (if p.flags.syn then 1 else 0) + (if p.flags.fin then 1 else 0) > MAX_UINT64
  }

  /** Exactly these packets are well formed, and their end is the position behind everything they
      occupy. */
  lemma WellFormed(p: Packet)
    ensures ValidSACKOptions(p) <==> !OddOptions(p)
    ensures SequenceEnd(p).None? <==> LeavesPositions(p)
    ensures SequenceEnd(p).Some? ==> SequenceEnd(p).value == p.seqNo + p.size + (if p.flags.syn then 1 else 0) + (if p.flags.fin then 1 else 0)
  {
  }

  /** The state of one end of a connection. */
  datatype TCPState =
    | Closed | SynSent | SynReceived | Established | FinWait1
    | FinWait2 | CloseWait | Closing | LastAck | TimeWait

  datatype CloseOutcome = NoOutcome | Graceful | Reset | FINRetryLimit | WaitTimeout | Aborted

  const MAX_RETRANSMISSIONS: nat := 30
}
