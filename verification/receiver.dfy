/**
 * The stop-and-wait receiver: it accepts the next expected unit, answers
 * the duplicate of the unit just before it from a one-slot cache of the
 * last acknowledgment, and rejects everything else.
 *
 * OnPacketStep on ReceiverState is the specification; the class
 * SAWReceiver updates its fields in place and is proved to follow it.
 */
module Receiver {
  import opened Packets

  datatype ReceiverState = ReceiverState(nextSeq: nat, lastAck: Option<Packet>)

  /** The cache holds the acknowledgment of the unit before `nextSeq`, and is empty only at the start. */
  ghost predicate CacheInv(r: ReceiverState)
  {
    (r.lastAck == None <==> r.nextSeq == 0) &&
    (r.nextSeq > 0 ==> r.lastAck == Some(Ack(r.nextSeq - 1)))
  }

  /** `on_packet`: the receiver's reaction to one arriving packet. */
  function OnPacketStep(r: ReceiverState, p: Packet): (res: (ReceiverState, ReceiverAction))
    ensures p == Data(r.nextSeq) ==>
              res == (ReceiverState(r.nextSeq + 1, Some(Ack(r.nextSeq))), Send(Ack(r.nextSeq)))
    ensures p != Data(r.nextSeq) ==> res.0 == r
    ensures p.Data? && p.seqNum + 1 == r.nextSeq ==>
              res.1 == if r.lastAck.Some? then Send(r.lastAck.value) else Error(DuplicateWithNoPriorAck)
    ensures p.Data? && p.seqNum != r.nextSeq && p.seqNum + 1 != r.nextSeq ==>
              res.1 == Error(OutOfOrder(r.nextSeq, p.seqNum))
    ensures p.Ack? ==> res.1 == Error(UnexpectedPacketKind(p))
    ensures !res.1.Ignore?
    ensures CacheInv(r) ==> CacheInv(res.0)
  {
    match p
    case Data(n) =>
      if n == r.nextSeq then
        var newAck := Ack(n);
        (ReceiverState(r.nextSeq + 1, Some(newAck)), Send(newAck))
      else if n + 1 == r.nextSeq then
        match r.lastAck
        case Some(ack) => (r, Send(ack))
        case None => (r, Error(DuplicateWithNoPriorAck))
      else
        (r, Error(OutOfOrder(r.nextSeq, n)))
    case Ack(_) => (r, Error(UnexpectedPacketKind(p)))
  }

  /**
   * Within the cache invariant a duplicate of the unit just accepted is
   * answered with that unit's acknowledgment and changes nothing.
   */
  lemma DuplicateAnsweredFromCache(r: ReceiverState)
    requires CacheInv(r) && r.nextSeq > 0
    ensures OnPacketStep(r, Data(r.nextSeq - 1)) == (r, Send(Ack(r.nextSeq - 1)))
  {
  }

  /** What a run of the receiver over a packet stream produced. */
  datatype Trace = Trace(final: ReceiverState, actions: seq<ReceiverAction>, accepted: seq<nat>)

  /**
   * Feed the packets to the receiver in order. A packet is recorded as
   * accepted when it made `nextSeq` move.
   */
  function RunReceiver(r: ReceiverState, packets: seq<Packet>): Trace
    decreases |packets|
  {
    if packets == [] then Trace(r, [], [])
    else
      var before := RunReceiver(r, packets[..|packets| - 1]);
      var p := packets[|packets| - 1];
      var (m, action) := OnPacketStep(before.final, p);
      Trace(m, before.actions + [action],
            if m.nextSeq != before.final.nextSeq then before.accepted + [p.seqNum] else before.accepted)
  }

  /**
   * Whatever packets arrive, the receiver keeps its cache invariant, never
   * produces `Ignore` nor the no-prior-ack error, and the units it accepts
   * are exactly the consecutive numbers from where it started, in order,
   * without gaps or repeats.
   */
  lemma {:induction false} RunAcceptsInOrder(r: ReceiverState, packets: seq<Packet>)
    requires CacheInv(r)
    ensures CacheInv(RunReceiver(r, packets).final)
    ensures r.nextSeq <= RunReceiver(r, packets).final.nextSeq
    ensures RunReceiver(r, packets).accepted == Interval(r.nextSeq, RunReceiver(r, packets).final.nextSeq)
    ensures |RunReceiver(r, packets).actions| == |packets|
    ensures forall k :: 0 <= k < |packets| ==>
              RunReceiver(r, packets).actions[k] != Error(DuplicateWithNoPriorAck) &&
              !RunReceiver(r, packets).actions[k].Ignore?
    decreases |packets|
  {
    if packets != [] {
      RunAcceptsInOrder(r, packets[..|packets| - 1]);
    }
  }

  /**
   * Repeating the duplicate of the last accepted unit any number of times
   * gives the same acknowledgment every time and never moves `nextSeq`.
   */
  lemma {:induction false} RepeatedDuplicatesIdempotent(r: ReceiverState, n: nat)
    requires CacheInv(r) && r.nextSeq > 0
    ensures RunReceiver(r, seq(n, _ => Data(r.nextSeq - 1))).final == r
    ensures RunReceiver(r, seq(n, _ => Data(r.nextSeq - 1))).accepted == []
    ensures RunReceiver(r, seq(n, _ => Data(r.nextSeq - 1))).actions == seq(n, _ => Send(Ack(r.nextSeq - 1)))
    decreases n
  {
    if n > 0 {
      var dups := seq(n, _ => Data(r.nextSeq - 1));
      assert dups[..n - 1] == seq(n - 1, _ => Data(r.nextSeq - 1));
      RepeatedDuplicatesIdempotent(r, n - 1);
      DuplicateAnsweredFromCache(r);
      assert seq(n - 1, _ => Send(Ack(r.nextSeq - 1))) + [Send(Ack(r.nextSeq - 1))]
          == seq(n, _ => Send(Ack(r.nextSeq - 1)));
    }
  }

  /** `SAWReceiver`: the receiver's state, updated in place. */
  class SAWReceiver {
    var nextSeq: nat
    var lastAck: Option<Packet>

    function State(): ReceiverState
      reads this
    {
      ReceiverState(nextSeq, lastAck)
    }

    constructor ()
      ensures State() == ReceiverState(0, None)
      ensures CacheInv(State())
    {
      nextSeq := 0;
      lastAck := None;
    }

    method OnPacket(packet: Packet) returns (action: ReceiverAction)
      modifies this
      ensures (State(), action) == OnPacketStep(old(State()), packet)
    {
      match packet
      case Data(n) =>
        if n == nextSeq {
          var newAck := Ack(n);
          lastAck := Some(newAck);
          nextSeq := nextSeq + 1;
          return Send(newAck);
        } else if n + 1 == nextSeq {
          match lastAck
          case Some(ack) =>
            return Send(ack);
          case None =>
            return Error(DuplicateWithNoPriorAck);
        } else {
          return Error(OutOfOrder(nextSeq, n));
        }
      case Ack(_) =>
        action := Error(UnexpectedPacketKind(packet));
    }
  }
}
