/**
 * The vocabulary the stop-and-wait sender and receiver share: packets,
 * the typed errors that replace the source's error strings, the receiver's
 * actions, and the run of consecutive sequence numbers a session delivers.
 */
module Packets {

  /** A packet on the wire. Sequence numbers are unbounded here. */
  datatype Packet = Data(seqNum: nat) | Ack(seqNum: nat)

  /** Why a state machine refused an event. */
  datatype ProtocolError =
    | RetriesExhausted(unit: nat)
    | SequenceMismatch(expected: nat, got: nat)
    | UnexpectedPacketKind(packet: Packet)
    | DuplicateWithNoPriorAck
    | OutOfOrder(expected: nat, got: nat)

  datatype Result<T> = Ok(value: T) | Err(error: ProtocolError)

  datatype Option<T> = None | Some(value: T)

  /** What the receiver asks its driver to do with an arriving packet. */
  datatype ReceiverAction = Send(packet: Packet) | Ignore | Error(error: ProtocolError)

  /** The sequence numbers lo, lo + 1, ..., hi - 1, in that order. */
  function Interval(lo: nat, hi: nat): (s: seq<nat>)
    decreases hi
    ensures |s| == if lo <= hi then hi - lo else 0
    ensures forall k :: 0 <= k < |s| ==> s[k] == lo + k
  {
    if hi <= lo then [] else Interval(lo, hi - 1) + [hi - 1]
  }
}
