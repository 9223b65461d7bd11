// The state of a promise/future pair and the exceptions the runtime raises.
//
// A C++ exception is modelled as a value: every operation that may throw
// returns an `Outcome`, whose `Throw` case names what was thrown.
module FutureStates {
  /** FutureState of quantum_future_state.h (PromiseNotSatisfied = 1, ...). */
  datatype FutureState =
    | PromiseNotSatisfied      // value has not been set yet
    | PromiseAlreadySatisfied  // value set, not yet consumed
    | BrokenPromise            // producer gave up
    | FutureAlreadyRetrieved   // value consumed; for a buffer, nothing more to pull
    | NoState                  // no shared state
    | BufferingData            // buffered future is streaming
    | BufferClosed             // buffer closed for pushing, pulling still allowed

  /** Numeric value of the C++ enumerator. */
  function Code(s: FutureState): (c: int)
    ensures 1 <= c <= 7
  {
    match s
    case PromiseNotSatisfied => 1
    case PromiseAlreadySatisfied => 2
    case BrokenPromise => 3
    case FutureAlreadyRetrieved => 4
    case NoState => 5
    case BufferingData => 6
    case BufferClosed => 7
  }

  /** The enumerator values, in declaration order from 1, are distinct: the numeric value names exactly one state. */
  lemma CodeInjective(s: FutureState, t: FutureState)
    ensures Code(s) == Code(t) <==> s == t
    ensures Code(PromiseNotSatisfied) == 1 && Code(PromiseAlreadySatisfied) == 2 && Code(BrokenPromise) == 3
    ensures Code(FutureAlreadyRetrieved) == 4 && Code(NoState) == 5 && Code(BufferingData) == 6 && Code(BufferClosed) == 7
  {
  }

  /** Identity of an exception object carried by a std::exception_ptr. */
  type ExceptionPtr = nat

  /** What an operation threw. */
  datatype Failure =
    | FutureError(state: FutureState)    // the FutureException subclass for `state`
    | UserException(ex: ExceptionPtr)    // an exception stored with setException, rethrown
    | OutOfRange(what: string)           // std::out_of_range
    | RuntimeError(what: string)         // std::runtime_error
    | InvalidArgument(what: string)      // std::invalid_argument
    | LengthError(what: string)          // std::length_error
    | BadAlloc                           // std::bad_alloc

  datatype Outcome<T> = Ok(value: T) | Throw(failure: Failure)
  {
    predicate IsFailure() { Throw? }
  }
}
