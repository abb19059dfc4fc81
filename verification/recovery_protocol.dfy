/** Messages of the recovery protocol between the surviving owner and its short-lived hosts. */
module RecoveryProtocol {
  import opened Machine

  const EVIDENCE_LIFETIME_MS: U64 := 1000
  const CLEAR: U64 := 1
  const SUCCEEDED: U64 := 1
  const FAILED: U64 := 2
  const CANCELLED: U64 := 3
  const NOT_LAUNCHED: U64 := 4

  datatype Kind = Hello | Query | Snapshot | Activate | Activated | Submit | Accepted | Result | OtherKind(code: nat)

  datatype Message = Message(
    kind: Kind,
    session: U64,
    request: U64,
    operation: U64,
    amount: U64,
    value: U64,
    flags: U64)

  /** A message of a session with nothing else in it. */
  function Reply(kind: Kind, session: U64, request: U64): Message {
    Message(kind, session, request, 0, 0, 0, 0)
  }

  predicate HasEmptyPayload(m: Message) {
    m.operation == 0 && m.amount == 0 && m.value == 0 && m.flags == 0
  }

  /** How a non-blocking send ends. */
  datatype SendOutcome = Done | Again | PeerClosed

  /** How a non-blocking receive ends; anything but a whole message of this protocol counts as closed. */
  datatype ReceiveOutcome = Got(message: Message) | NothingThere | NoPeer

  /** Unsigned subtraction of two times. */
  function Elapsed(start: U64, now: U64): U64 {
    if now >= start then now - start else now + (MAX_U64 - start) + 1
  }

  /** Less than the evidence lifetime has passed since `start`. */
  predicate IsFresh(start: U64, now: U64) {
    now >= start && now - start < EVIDENCE_LIFETIME_MS
  }
}
