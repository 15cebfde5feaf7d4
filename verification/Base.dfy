/** Types shared by every part of the model.

    A `string` is the sequence of the UTF-8 code units of the text, one `char` each, so
    that `|s|` is the byte length the program compares.  Identifiers are natural numbers
    and 0 is the nil identifier.  An instant is a number of nanoseconds. */
module Base {

  type Uuid = nat
  type Instant = int

  const NIL: Uuid := 0
  const U64_MAX: nat := 0xFFFF_FFFF_FFFF_FFFF
  const U128_MAX: nat := 0xFFFF_FFFF_FFFF_FFFF_FFFF_FFFF_FFFF_FFFF

  type u32 = x: nat | x <= 0xFFFF_FFFF
  type u64 = x: nat | x <= 0xFFFF_FFFF_FFFF_FFFF

  const FIFTEEN_MINUTES: int := 900_000_000_000

  datatype Option<+T> = None | Some(value: T)

  /** A success or failure, usable with `:-`. */
  datatype Result<+T, +E> = Ok(value: T) | Err(error: E) {
    predicate IsFailure() {
      Err?
    }

    function PropagateFailure<U>(): Result<U, E>
      requires Err?
    {
      Err(error)
    }

    function Extract(): T
      requires Ok?
    {
      value
    }
  }

  /** A check that carries no value; `:- Guard(condition, error);` fails unless it holds. */
  datatype Check<+E> = Pass | Fail(error: E) {
    predicate IsFailure() {
      Fail?
    }

    function PropagateFailure<U>(): Result<U, E>
      requires Fail?
    {
      Err(error)
    }
  }

  function Guard<E>(condition: bool, error: E): Check<E> {
    if condition then Pass else Fail(error)
  }

  function Lookup<T>(m: map<Uuid, T>, id: Uuid): Option<T> {
    if id in m then Some(m[id]) else None
  }

  lemma SubsetSameSize<T>(a: set<T>, b: set<T>)
    requires a <= b && |a| == |b|
    ensures a == b
  {
    assert |b - a| == |b| - |a|;
    assert b - a == {};
  }

  datatype BudgetError = Exhausted | InvalidEstimate | OperationConflict | DispatchConflict | UpperBoundExceeded

  datatype RuntimeError =
    | Budget(cause: BudgetError)
    | StateIntegrity
    | StateWrite
    | InvalidRequest
    | Forbidden
    | Disconnected
    | Conflict
    | ProviderAuth
    | Quota
    | Unavailable
    | Protocol
    | CapabilityNotVerified
    | ContextExceeded
    | OutputTruncated
    | ExternalCallsDisabled
}
