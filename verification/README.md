# Stop-and-wait ARQ engine in Dafny

This project models the stop-and-wait automatic repeat request engine of
`src/protocol.rs`. That file holds two small synchronous state machines and
the packet vocabulary they share.

- **The sender (`SAWSender`)** holds the sequence number of the unit in flight, the number of units to send, the transmissions used for the current unit, and the retry budget.
  - `start_seq` (re)starts a unit.
  - `on_timeout` retransmits the same `Data` packet until the budget is spent.
  - `on_ack` accepts only the acknowledgment of the unit in flight.
- **The receiver (`SAWReceiver`)** holds the next expected sequence number and a one-slot cache of the last acknowledgment. `on_packet` does one of three things:
  - it accepts the expected unit;
  - it answers the duplicate of the unit just before it from the cache;
  - it rejects everything else.

Files:

- `packets.dfy` (module `Packets`): `Packet`, a typed `ProtocolError` in place of the source's error strings, `Result`, `Option`, `ReceiverAction` and `Interval`, the run of consecutive sequence numbers.
- `sender.dfy` (module `Sender`): the sender's value state `SenderState` and one step function per operation (`StartSeqStep`, `OnTimeoutStep`, `OnAckStep`). These functions are the specification. Lemmas about runs of events and runs of timeouts are proved about them. The class `SAWSender` updates its fields in place, and each of its methods is proved to follow its step function.
- `receiver.dfy` (module `Receiver`): the same layout for the receiver. It has `ReceiverState`, `OnPacketStep`, the cache invariant `CacheInv`, lemmas about runs over any packet stream, and the class `SAWReceiver`.
- `session.dfy` (module `Session`): the two machines composed.
  - The lemmas cover one lossless exchange and one exchange whose acknowledgment was lost.
  - `RunSession` is the driver loop of `src/main.rs`. It runs over a channel that may drop any transmission. `Fate` gives the channel's choice for each transmission.

Sequence numbers, attempt counts and limits are `nat`.

Notes on the code:

- The code does not keep `seq <= max_seq`: `on_ack` does not check `done()`, so an `Ack(max_seq)` moves `seq` past `max_seq`. `OnAckStep` models this, and `RunSession` proves the bound for a driver that stops at `done()`.
- With `max_attempts = 0` the unit is still sent once and the first timeout gives up, since `start_seq` sets `attempt` to 1 (lines 29 and 36). `GivesUpOnFirstTimeoutWithoutBudget` states this.
- The source returns the same error text for a duplicate with no cached acknowledgment (line 96) and for a gap (line 99). The model separates them as `DuplicateWithNoPriorAck` and `OutOfOrder(expected, got)`.

## Model

| member | source | states |
|---|---|---|
| `Sender.SAWSender.constructor` | src/protocol.rs:17-24 | A new sender starts at `seq = 0` and `attempt = 0`, with the given `max_seq` and `max_attempts`. |
| `Sender.SAWSender.Done` | src/protocol.rs:25-27 | True exactly when `seq >= max_seq`. It only reads the object and changes no state. |
| `Sender.StartSeqStep` | src/protocol.rs:28-31 | Returns `Data(seq)` for the current unit and sets `attempt` to 1. It leaves `seq`, `max_seq` and `max_attempts` unchanged. With a budget of at least 1 it keeps `attempt <= max_attempts`. |
| `Sender.SAWSender.StartSeq` | src/protocol.rs:28-31 | Modifies only `attempt`. The new state and the packet are those of `StartSeqStep`. |
| `Sender.OnTimeoutStep` | src/protocol.rs:32-41 | Succeeds exactly when `attempt < max_attempts`. On success it returns `Data(seq)` for the same `seq` and adds 1 to `attempt`. Otherwise it fails with `RetriesExhausted(seq)` and leaves the state unchanged. It never changes `seq` and preserves `attempt <= max_attempts`. |
| `Sender.SAWSender.OnTimeout` | src/protocol.rs:32-41 | Modifies only `attempt`. It follows `OnTimeoutStep`. |
| `Sender.OnAckStep` | src/protocol.rs:42-60 | Succeeds exactly on `Ack(seq)` for the current `seq`. Success moves `seq` up by 1 and resets `attempt` to 0. Any stale or premature `Ack` fails with `SequenceMismatch(seq, got)`. Any `Data` fails with `UnexpectedPacketKind`. A failure changes nothing. |
| `Sender.SAWSender.OnAck` | src/protocol.rs:42-60 | Modifies only `seq` and `attempt`. It follows `OnAckStep`. |
| `Sender.RunMonotone` | src/protocol.rs:28-59 | Over any sequence of start, timeout and ack events, `max_seq` and `max_attempts` stay fixed. `seq` never decreases and grows by at most one per event. With a budget of at least 1, `attempt <= max_attempts` is preserved. |
| `Sender.TimeoutsWithinBudget` | src/protocol.rs:36-40 | While `attempt + n <= max_attempts`, n timeouts in a row all return `Data(seq)` for the current unit. Together they add exactly n to `attempt` and change nothing else. |
| `Sender.GivesUpOnFirstTimeoutWithoutBudget` | src/protocol.rs:28-38 | With a budget of 0, `start_seq` still returns `Data(seq)` and sets `attempt` to 1, above the budget. The first timeout then fails with `RetriesExhausted(seq)` and changes nothing. |
| `Sender.GivesUpOnExactlyKthTimeout` | src/protocol.rs:28-40 | After `start_seq` with budget k >= 1, the first k-1 timeouts retransmit `Data(seq)`. The k-th timeout, not an earlier or later one, fails with `RetriesExhausted(seq)`, and the state then has `attempt = k`. |
| `Receiver.SAWReceiver.constructor` | src/protocol.rs:73-78 | A new receiver expects unit 0, has an empty cache, and satisfies the cache invariant. |
| `Receiver.OnPacketStep` | src/protocol.rs:79-104 | `Data(next_seq)` returns `Send(Ack(next_seq))`, caches that ack, and adds exactly 1 to `next_seq`. The duplicate `Data(next_seq - 1)` is answered from the cache. An empty cache gives `DuplicateWithNoPriorAck`. Any other `Data` gives `OutOfOrder(next_seq, got)`. Any `Ack` gives `UnexpectedPacketKind`. Only acceptance changes the state. `Ignore` is never produced. The cache invariant is preserved. |
| `Receiver.SAWReceiver.OnPacket` | src/protocol.rs:79-104 | The new state and the action are those of `OnPacketStep`. |
| `Receiver.DuplicateAnsweredFromCache` | src/protocol.rs:91-95 | Under the cache invariant, a duplicate of the last accepted unit gets `Send(Ack(next_seq - 1))` and leaves the receiver unchanged. |
| `Receiver.RunAcceptsInOrder` | src/protocol.rs:73-104 | For any packet stream fed to a receiver that satisfies the cache invariant, the invariant holds afterwards and `next_seq` never decreases. The accepted units are exactly the consecutive numbers from the starting `next_seq`, in order, with no gaps or repeats. The stream never produces `Ignore` or the no-prior-ack error, so line 96 cannot be reached from `new()`. |
| `Receiver.RepeatedDuplicatesIdempotent` | src/protocol.rs:91-95 | Any number of repeated duplicates of the last accepted unit each get the same `Send(Ack(next_seq - 1))`. The receiver's state and its accepted units stay unchanged. |
| `Session.LockstepExchange` | src/protocol.rs:28-90 | Suppose the sender's `seq` equals the receiver's `next_seq`. Then the receiver accepts the `Data` from `start_seq` and answers `Send(Ack(seq))`. The sender accepts that ack, and both sides agree on the next unit again. |
| `Session.LostAckRecovery` | src/protocol.rs:32-95 | Suppose the receiver has accepted the unit in flight and its ack was lost. The sender's retransmission is answered from the cache without changing the receiver. The sender accepts that answer, and both sides agree again. |
| `Session.Transmit` | src/main.rs:34-59 | One transmission over a drop-only channel. The sender advances by exactly one unit exactly when the transmission is delivered, and it then agrees with the receiver. Otherwise the sender is unchanged. If the data is lost, the receiver and the delivered list are unchanged. If the data arrives, the receiver ends one unit ahead of the sender's old `seq`, whether it accepted the unit now or had accepted it before. The cache invariant and the in-order delivered list are kept. |
| `Session.SendUnit` | src/main.rs:33-60 | The retry loop for one unit. It ends either with the unit acknowledged and both sides at the next unit, or with `RetriesExhausted` for this unit. With a budget of at least 1, it gives up exactly when the unit's own first `max_attempts` transmissions are all lost, and it has then used exactly `max_attempts` transmissions. |
| `Session.RunSession` | src/main.rs:24-84 | The whole session over a drop-only channel. The receiver delivers exactly 0, 1, 2, ... in order. A successful session delivers all `max_seq` units. Every failure is `RetriesExhausted` for the unit in flight, and the fate list then contains a run of `max_attempts` consecutive losses. If the fate list is shorter than `max_attempts`, the session succeeds. |

## Left out

- `u32` arithmetic:
  - Sequence numbers are unbounded here, so `seq += 1` (line 54), `next_seq += 1` (line 89) and `*seq + 1` (line 91) are not modelled at `u32::MAX`, where they panic or wrap.
  - A wrapped `*seq + 1` in a release build would make `Data(u32::MAX)` reach the no-prior-ack branch (line 96) of a fresh receiver. The model does not capture this.
  - `attempt += 1` (line 39) cannot overflow, because it is guarded by `attempt < max_attempts`.
- The error message texts of lines 37, 49-52, 58, 96, 99 and 102 are replaced by typed `ProtocolError` values.
- `ReceiverAction::Ignore` is kept in the datatype. `OnPacketStep` is proved never to produce it.
- The unused `use std::io::Error` import and the `Debug`/`Clone`/`PartialEq` derives are omitted. Packets are Dafny values.
- The tokio runtime, tasks, `mpsc` channels, `tokio::join!`, `println!` logging and the 200 ms timeout duration of `src/main.rs` are I/O and scheduling.
  - The driver loop appears only as `RunSession`, `SendUnit` and `Transmit`.
  - Channel closure and send errors are not modelled.
- `Session.RunSession`: the channel model only drops transmissions.
  - It does not delay or reorder them.
  - The source's channel can deliver an acknowledgment after the sender has timed out and retransmitted. The second copy of that acknowledgment then reaches `on_ack` for the next unit. `OnAckStep` rejects it with `SequenceMismatch`, which ends the source's session.
  - Its failure condition only says that the fate list holds a run of `max_attempts` losses, not that the run belongs to the unit in flight. `Session.SendUnit` states the exact condition for one unit.
