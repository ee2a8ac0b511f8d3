/** Fixed-width integers, identifiers and result types shared by every model module. */
module Base {
  const U64_MAX: nat := 0xFFFF_FFFF_FFFF_FFFF
  const I64_MIN: int := -0x8000_0000_0000_0000
  const I64_MAX: int := 0x7FFF_FFFF_FFFF_FFFF
  const UUID_COUNT: nat := 0x1_0000_0000_0000_0000_0000_0000_0000_0000
  /** The offset that separates timer ids from message ids: 2^96. */
  const TIMER_OFFSET: nat := 0x1_0000_0000_0000_0000_0000_0000

  type U64 = n: nat | n <= U64_MAX
  type I64 = n: int | I64_MIN <= n <= I64_MAX
  type Uuid = n: nat | n < UUID_COUNT

  datatype Option<+T> = None | Some(value: T)

  /** Every way in which a record or a replay run, or loading a program, can stop with an error. */
  datatype Error =
    | UnknownService(service: string)
    | ActorMissing(actor: Uuid)
    | EmptyInbox(actor: Uuid)
    | UndecodablePayload
    | UndeclaredState(key: string)
    | StateOverflow(key: string)
    | MsgIdMismatch(traced: Uuid, popped: Uuid)
    | UnknownTimer(timer: Uuid)
    | EmissionMismatch
    | TraceEnded
    | UnexpectedEmission
    | StoppedEarly
    | UndeliveredInbox
    | DuplicateService(service: string)
    | DuplicateState(key: string)
    | DuplicateHandler(service: string, on: string)
    | ZeroTimerSteps
    | InvalidNodeTarget(raw: string)
    | EffectMismatch(service: string, on: string)
    | EmptyPhase
    | OverlappingPhases
    | OpenPhaseNotLast

  datatype Result<+T> = Ok(value: T) | Err(error: Error) {
    predicate IsFailure() { Err? }

    function PropagateFailure<U>(): Result<U>
      requires Err?
    {
      Err(error)
    }

    function Extract(): T
      requires Ok?
    {
      value
    }
  }

  ghost predicate Distinct<T>(s: seq<T>) {
    forall i, j :: 0 <= i < j < |s| ==> s[i] != s[j]
  }

  function Once(condition: bool): nat { if condition then 1 else 0 }

  /** `u64::saturating_add`. */
  function SatAdd(a: U64, b: U64): (r: U64)
  {
    if a + b <= U64_MAX then a + b else U64_MAX
  }

  /** The id `next_deterministic_msg_id` mints at this counter value. */
  function MsgId(node: Uuid, counter: U64): Uuid {
    (node + counter) % UUID_COUNT
  }

  /** The id `next_deterministic_timer_id` mints at this counter value. */
  function TimerId(node: Uuid, counter: U64): Uuid {
    (node + TIMER_OFFSET + counter) % UUID_COUNT
  }

  /** The counter value behind a node's message id, and behind its timer id. */
  function MsgIndex(node: Uuid, id: Uuid): nat {
    (id - node) % UUID_COUNT
  }

  function TimerIndex(node: Uuid, id: Uuid): nat {
    (id - node - TIMER_OFFSET) % UUID_COUNT
  }

  /** A node's ids determine the counter value they were minted at, and no message id of a node is
      one of its timer ids, even when the sums wrap around 2^128. */
  lemma IdsDetermineCounters(node: Uuid, c: U64, d: U64)
    ensures MsgIndex(node, MsgId(node, c)) == c
    ensures TimerIndex(node, TimerId(node, c)) == c
    ensures MsgId(node, c) != TimerId(node, d)
  {
  }
}
