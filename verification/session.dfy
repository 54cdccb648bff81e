/**
 * A sender and a receiver working together. The lemmas compose one
 * exchange of the two state machines; RunSession is the driver loop of
 * src/main.rs over a channel that may drop packets but neither reorders
 * nor delays them.
 */
module Session {
  import opened Packets
  import opened Sender
  import opened Receiver

  /**
   * Lossless exchange: if the sender is at the unit the receiver expects,
   * the data from `start_seq` is accepted, its acknowledgment is accepted by
   * the sender, and both sides again agree on the next unit.
   */
  lemma LockstepExchange(s: SenderState, r: ReceiverState)
    requires s.seqNum == r.nextSeq && CacheInv(r)
    ensures var (s1, data) := StartSeqStep(s);
            var (r1, action) := OnPacketStep(r, data);
            action == Send(Ack(s.seqNum)) &&
            OnAckStep(s1, action.packet) == (s.(seqNum := s.seqNum + 1, attempt := 0), Ok(())) &&
            r1.nextSeq == s.seqNum + 1 && CacheInv(r1)
  {
  }

  /**
   * Lost acknowledgment: the receiver has accepted the unit in flight but its
   * acknowledgment was lost. The sender's retransmission is answered from the
   * cache without changing the receiver, and the sender accepts that answer,
   * after which both sides agree on the next unit.
   */
  lemma LostAckRecovery(s: SenderState, r: ReceiverState)
    requires s.seqNum + 1 == r.nextSeq && CacheInv(r) && s.attempt < s.maxAttempts
    ensures var (s1, retry) := OnTimeoutStep(s);
            retry == Ok(Data(s.seqNum)) &&
            OnPacketStep(r, retry.value) == (r, Send(Ack(s.seqNum))) &&
            OnAckStep(s1, Ack(s.seqNum)).1 == Ok(()) &&
            OnAckStep(s1, Ack(s.seqNum)).0.seqNum == r.nextSeq
  {
  }

  /** What the channel does with one transmission of a data packet. */
  datatype Fate = Delivered | DataLost | AckLost

  /** The fate of the i-th transmission; transmissions past the list are delivered. */
  function FateAt(fates: seq<Fate>, i: nat): Fate
  {
    if i < |fates| then fates[i] else Delivered
  }

  /** The n transmissions starting at index j all exist in `fates` and were all lost. */
  ghost predicate LostRun(fates: seq<Fate>, j: nat, n: nat)
  {
    (0 < n ==> j + n <= |fates|) &&
    forall m :: j <= m < j + n ==> fates[m] != Delivered
  }

  /**
   * One transmission of the unit in flight: the data reaches the receiver
   * unless it is lost, and the receiver's answer reaches the sender only if
   * the transmission is delivered. `delivered` gains the unit if the
   * receiver accepted it.
   */
  method Transmit(tx: SAWSender, rx: SAWReceiver, pkt: Packet, fate: Fate, delivered0: seq<nat>)
    returns (acked: bool, delivered: seq<nat>)
    requires pkt == Data(tx.seqNum) && (rx.nextSeq == tx.seqNum || rx.nextSeq == tx.seqNum + 1)
    requires CacheInv(rx.State()) && delivered0 == Interval(0, rx.nextSeq)
    modifies tx, rx
    ensures tx.maxSeq == old(tx.maxSeq) && tx.maxAttempts == old(tx.maxAttempts)
    ensures CacheInv(rx.State()) && delivered == Interval(0, rx.nextSeq)
    ensures acked <==> fate == Delivered
    ensures acked ==> tx.seqNum == old(tx.seqNum) + 1 == rx.nextSeq
    ensures !acked ==> tx.State() == old(tx.State())
    ensures fate == DataLost ==> rx.State() == old(rx.State()) && delivered == delivered0
    ensures fate != DataLost ==> rx.nextSeq == old(tx.seqNum) + 1
  {
    delivered := delivered0;
    acked := false;
    if fate != DataLost {
      var before := rx.nextSeq;
      var action := rx.OnPacket(pkt);
      if rx.nextSeq != before {
        delivered := delivered + [pkt.seqNum];
      }
      if fate == Delivered {
        var ackResult := tx.OnAck(action.packet);
        assert ackResult.Ok?;
        acked := true;
      }
    }
  }

  /**
   * The inner loop of the driver in src/main.rs for one unit: `start_seq`,
   * then transmit and either feed the reply to `on_ack` or, on a timeout,
   * retransmit what `on_timeout` returns; the receiver answers each data
   * packet that reaches it. `fates[i0..]` says what the channel does with
   * each transmission; `delivered` gains the unit if the receiver accepted it.
   */
  method SendUnit(tx: SAWSender, rx: SAWReceiver, fates: seq<Fate>, i0: nat, delivered0: seq<nat>)
    returns (outcome: Result<()>, i: nat, delivered: seq<nat>)
    requires tx.seqNum == rx.nextSeq < tx.maxSeq
    requires CacheInv(rx.State()) && delivered0 == Interval(0, rx.nextSeq)
    modifies tx, rx
    ensures tx.maxSeq == old(tx.maxSeq) && tx.maxAttempts == old(tx.maxAttempts)
    ensures CacheInv(rx.State()) && delivered == Interval(0, rx.nextSeq)
    ensures outcome.Ok? ==> tx.seqNum == old(tx.seqNum) + 1 == rx.nextSeq
    ensures outcome.Err? ==>
              outcome.error == RetriesExhausted(old(tx.seqNum)) &&
              (rx.nextSeq == old(tx.seqNum) || rx.nextSeq == old(tx.seqNum) + 1) &&
              exists j :: LostRun(fates, j, tx.maxAttempts)
    ensures 1 <= tx.maxAttempts ==> (outcome.Err? <==> LostRun(fates, i0, tx.maxAttempts))
    ensures outcome.Err? && 1 <= tx.maxAttempts ==> i == i0 + tx.maxAttempts
  {
    ghost var unit := tx.seqNum;
    delivered := delivered0;
    i := i0;
    var pkt := tx.StartSeq();
    var acked := false;
    while !acked
      invariant tx.maxSeq == old(tx.maxSeq) && tx.maxAttempts == old(tx.maxAttempts)
      invariant CacheInv(rx.State()) && delivered == Interval(0, rx.nextSeq)
      invariant acked ==> tx.seqNum == unit + 1 == rx.nextSeq
      invariant !acked ==>
                  tx.seqNum == unit && pkt == Data(unit) &&
                  (rx.nextSeq == unit || rx.nextSeq == unit + 1) &&
                  1 <= tx.attempt && (tx.attempt <= tx.maxAttempts || tx.attempt == 1) &&
                  tx.attempt - 1 <= i && LostRun(fates, i - (tx.attempt - 1), tx.attempt - 1) &&
                  i == i0 + tx.attempt - 1
      invariant acked ==>
                  i0 < i && (i <= i0 + tx.maxAttempts || i == i0 + 1) && FateAt(fates, i - 1) == Delivered
      decreases !acked, tx.maxAttempts + 1 - tx.attempt
    {
      acked, delivered := Transmit(tx, rx, pkt, FateAt(fates, i), delivered);
      i := i + 1;
      if !acked {
        var retry := tx.OnTimeout();
        if retry.Err? {
          assert LostRun(fates, i - tx.attempt, tx.attempt);
          assert LostRun(fates, i - tx.maxAttempts, tx.maxAttempts);
          return Err(retry.error), i, delivered;
        }
        pkt := retry.value;
      }
    }
    outcome := Ok(());
  }

  /**
   * The driver of src/main.rs over a drop-only channel: SendUnit for each
   * unit until the sender is done or gives up. `delivered` lists the units
   * the receiver accepted, in order.
   *
   * No protocol error ever happens: the receiver delivers exactly 0, 1, 2,
   * ... in order, a session that succeeds delivers every unit, and the only
   * way to fail is to give up on a unit after `maxAttempts` consecutive lost
   * transmissions.
   */
  method RunSession(maxSeq: nat, maxAttempts: nat, fates: seq<Fate>)
    returns (outcome: Result<()>, delivered: seq<nat>)
    ensures |delivered| <= maxSeq
    ensures forall k :: 0 <= k < |delivered| ==> delivered[k] == k
    ensures outcome.Ok? ==> |delivered| == maxSeq
    ensures outcome.Err? ==>
              outcome.error.RetriesExhausted? &&
              outcome.error.unit < maxSeq &&
              (outcome.error.unit == |delivered| || outcome.error.unit + 1 == |delivered|) &&
              exists j :: LostRun(fates, j, maxAttempts)
    ensures |fates| < maxAttempts ==> outcome.Ok?
  {
    var tx := new SAWSender(maxSeq, maxAttempts);
    var rx := new SAWReceiver();
    delivered := [];
    var i: nat := 0;
    while !tx.Done()
      invariant tx.maxSeq == maxSeq && tx.maxAttempts == maxAttempts
      invariant tx.seqNum == rx.nextSeq <= maxSeq
      invariant CacheInv(rx.State()) && delivered == Interval(0, rx.nextSeq)
      decreases maxSeq - tx.seqNum
    {
      outcome, i, delivered := SendUnit(tx, rx, fates, i, delivered);
      if outcome.Err? {
        ghost var j: nat :| LostRun(fates, j, maxAttempts);
        if 0 < maxAttempts {
          assert j + maxAttempts - 1 < |fates|;
        }
        return;
      }
    }
    outcome := Ok(());
  }
}
