/**
 * The stop-and-wait sender: it owns the sequence number of the unit in
 * flight and the number of transmissions used for it, retransmits on a
 * timeout until its retry budget is spent, and advances only on the
 * acknowledgment of the unit in flight.
 *
 * The step functions on SenderState are the specification; the class
 * SAWSender updates its fields in place and is proved to follow them.
 */
module Sender {
  import opened Packets

  datatype SenderState = SenderState(seqNum: nat, maxSeq: nat, attempt: nat, maxAttempts: nat)

  /** `start_seq`: (re)start transmitting the current unit. */
  function StartSeqStep(s: SenderState): (r: (SenderState, Packet))
    ensures r.1 == Data(s.seqNum)
    ensures r.0.seqNum == s.seqNum && r.0.maxSeq == s.maxSeq && r.0.maxAttempts == s.maxAttempts
    ensures r.0.attempt == 1
    ensures 1 <= s.maxAttempts ==> r.0.attempt <= r.0.maxAttempts
  {
    (s.(attempt := 1), Data(s.seqNum))
  }

  /** `on_timeout`: retransmit the current unit while the budget lasts. */
  function OnTimeoutStep(s: SenderState): (r: (SenderState, Result<Packet>))
    ensures r.0.seqNum == s.seqNum && r.0.maxSeq == s.maxSeq && r.0.maxAttempts == s.maxAttempts
    ensures r.1.Ok? <==> s.attempt < s.maxAttempts
    ensures r.1.Ok? ==> r.1.value == Data(s.seqNum) && r.0.attempt == s.attempt + 1
    ensures r.1.Err? ==> r.1.error == RetriesExhausted(s.seqNum) && r.0 == s
    ensures s.attempt <= s.maxAttempts ==> r.0.attempt <= r.0.maxAttempts
  {
    if s.attempt >= s.maxAttempts then
      (s, Err(RetriesExhausted(s.seqNum)))
    else
      (s.(attempt := s.attempt + 1), Ok(Data(s.seqNum)))
  }

  /** `on_ack`: accept exactly the acknowledgment of the unit in flight. */
  function OnAckStep(s: SenderState, p: Packet): (r: (SenderState, Result<()>))
    ensures r.1.Ok? <==> p == Ack(s.seqNum)
    ensures r.1.Ok? ==> r.0 == s.(seqNum := s.seqNum + 1, attempt := 0)
    ensures r.1.Err? ==> r.0 == s
    ensures p.Data? ==> r.1 == Err(UnexpectedPacketKind(p))
    ensures p.Ack? && p.seqNum != s.seqNum ==> r.1 == Err(SequenceMismatch(s.seqNum, p.seqNum))
  {
    match p
    case Ack(n) =>
      if n != s.seqNum then (s, Err(SequenceMismatch(s.seqNum, n)))
      else (s.(seqNum := s.seqNum + 1, attempt := 0), Ok(()))
    case Data(_) => (s, Err(UnexpectedPacketKind(p)))
  }

  /** The three external events the sender reacts to. */
  datatype SenderEvent = Start | Timeout | AckArrived(packet: Packet)

  function Step(s: SenderState, e: SenderEvent): SenderState
  {
    match e
    case Start => StartSeqStep(s).0
    case Timeout => OnTimeoutStep(s).0
    case AckArrived(p) => OnAckStep(s, p).0
  }

  /** The state after feeding the events to the sender one by one. */
  function Run(s: SenderState, events: seq<SenderEvent>): SenderState
    decreases |events|
  {
    if events == [] then s else Run(Step(s, events[0]), events[1..])
  }

  /**
   * Over any sequence of events the configuration stays fixed, the sequence
   * number never decreases and grows by at most one per event, and (with a
   * budget of at least one) the attempt counter stays within the budget.
   */
  lemma {:induction false} RunMonotone(s: SenderState, events: seq<SenderEvent>)
    ensures Run(s, events).maxSeq == s.maxSeq && Run(s, events).maxAttempts == s.maxAttempts
    ensures s.seqNum <= Run(s, events).seqNum <= s.seqNum + |events|
    ensures 1 <= s.maxAttempts && s.attempt <= s.maxAttempts ==> Run(s, events).attempt <= s.maxAttempts
    decreases |events|
  {
    if events != [] {
      RunMonotone(Step(s, events[0]), events[1..]);
    }
  }

  /** `n` consecutive timeouts: the final state and each call's result, in order. */
  function Timeouts(s: SenderState, n: nat): (SenderState, seq<Result<Packet>>)
    decreases n
  {
    if n == 0 then (s, [])
    else
      var (t, results) := Timeouts(s, n - 1);
      var (t', r) := OnTimeoutStep(t);
      (t', results + [r])
  }

  /** Timeouts within the budget all retransmit the current unit, adding one attempt each. */
  lemma {:induction false} TimeoutsWithinBudget(s: SenderState, n: nat)
    requires s.attempt + n <= s.maxAttempts
    ensures Timeouts(s, n).0 == s.(attempt := s.attempt + n)
    ensures |Timeouts(s, n).1| == n
    ensures forall k :: 0 <= k < n ==> Timeouts(s, n).1[k] == Ok(Data(s.seqNum))
    decreases n
  {
    if n > 0 {
      TimeoutsWithinBudget(s, n - 1);
    }
  }

  /**
   * After `start_seq`, with a budget of k >= 1, the first k - 1 timeouts
   * retransmit and the k-th gives up on the current unit, leaving the state
   * as the (k-1)-th left it.
   */
  lemma GivesUpOnExactlyKthTimeout(s: SenderState)
    requires 1 <= s.maxAttempts
    ensures var (t, results) := Timeouts(StartSeqStep(s).0, s.maxAttempts);
            |results| == s.maxAttempts &&
            (forall k :: 0 <= k < s.maxAttempts - 1 ==> results[k] == Ok(Data(s.seqNum))) &&
            results[s.maxAttempts - 1] == Err(RetriesExhausted(s.seqNum)) &&
            t == s.(attempt := s.maxAttempts)
  {
    var started := StartSeqStep(s).0;
    TimeoutsWithinBudget(started, s.maxAttempts - 1);
  }

  /**
   * With a budget of 0 the unit is still sent once: `start_seq` leaves
   * `attempt` above the budget, and the first timeout gives up.
   */
  lemma GivesUpOnFirstTimeoutWithoutBudget(s: SenderState)
    requires s.maxAttempts == 0
    ensures var (started, data) := StartSeqStep(s);
            data == Data(s.seqNum) && started.attempt == 1 > started.maxAttempts &&
            OnTimeoutStep(started) == (started, Err(RetriesExhausted(s.seqNum)))
  {
  }

  /** `SAWSender`: the sender's state, updated in place. */
  class SAWSender {
    var seqNum: nat
    var maxSeq: nat
    var attempt: nat
    var maxAttempts: nat

    function State(): SenderState
      reads this
    {
      SenderState(seqNum, maxSeq, attempt, maxAttempts)
    }

    constructor (maxSeq: nat, maxAttempts: nat)
      ensures State() == SenderState(0, maxSeq, 0, maxAttempts)
    {
      this.seqNum := 0;
      this.maxSeq := maxSeq;
      this.attempt := 0;
      this.maxAttempts := maxAttempts;
    }

    /** Every unit has been acknowledged; reading it changes nothing. */
    function Done(): (d: bool)
      reads this
      ensures d <==> seqNum >= maxSeq
    {
      seqNum >= maxSeq
    }

    method StartSeq() returns (p: Packet)
      modifies this`attempt
      ensures (State(), p) == StartSeqStep(old(State()))
    {
      attempt := 1;
      p := Data(seqNum);
    }

    method OnTimeout() returns (r: Result<Packet>)
      modifies this`attempt
      ensures (State(), r) == OnTimeoutStep(old(State()))
    {
      if attempt >= maxAttempts {
        return Err(RetriesExhausted(seqNum));
      }
      attempt := attempt + 1;
      r := Ok(Data(seqNum));
    }

    method OnAck(packet: Packet) returns (r: Result<()>)
      modifies this`seqNum, this`attempt
      ensures (State(), r) == OnAckStep(old(State()), packet)
    {
      match packet
      case Ack(n) =>
        if n != seqNum {
          return Err(SequenceMismatch(seqNum, n));
        }
        seqNum := seqNum + 1;
        attempt := 0;
        r := Ok(());
      case Data(_) =>
        r := Err(UnexpectedPacketKind(packet));
    }
  }
}
