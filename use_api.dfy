/** The asynchronous request wrapper behind `useApi` and `useAsyncOperation`: a `{data, loading,
    error}` record stepped by `setState` calls. A call is split into its start (`Begin`) and its
    settlement (`Resolve`/`Reject`/`Settle`), so that the settlements of overlapping calls can be
    interleaved in either order. */
module UseApi {
  import opened Wrappers
  import opened Api

  datatype ApiState<+T> = ApiState(data: Option<T>, loading: bool, error: Option<ApiError>)

  /** The initial state, and the state `reset` writes: `{data: null, loading: false, error: null}`. */
  function Idle<T>(): ApiState<T> {
    ApiState(None, false, None)
  }

  /** `setState(prev => ({...prev, loading: true, error: null}))` */
  function Begun<T>(s: ApiState<T>): ApiState<T> {
    s.(loading := true, error := None)
  }

  /** `setState({data: result, loading: false, error: null})` */
  function Succeeded<T>(result: T): ApiState<T> {
    ApiState(Some(result), false, None)
  }

  /** `setState(prev => ({...prev, loading: false, error: apiError}))` */
  function Failed<T>(s: ApiState<T>, e: ApiError): ApiState<T> {
    s.(loading := false, error := Some(e))
  }

  /** The settlement step of one call, without callbacks. */
  function Settled<T>(s: ApiState<T>, outcome: Outcome<T>): ApiState<T> {
    match outcome
    case Resolved(v) => Succeeded(v)
    case Rejected(e) => Failed(s, e)
  }

  /** An error is reported only while no request is being started: `loading` and `error` never
      hold together. */
  predicate Consistent<T>(s: ApiState<T>) {
    s.loading ==> s.error.None?
  }

  /** Every step of the wrapper leaves a consistent state behind, from any state. */
  lemma StepsAreConsistent<T>(s: ApiState<T>, v: T, e: ApiError)
    ensures Consistent(Idle<T>()) && Consistent(Begun(s)) && Consistent(Succeeded(v)) && Consistent(Failed(s, e))
    ensures Begun(s).loading && Begun(s).data == s.data
    ensures Failed(s, e).data == s.data && !Failed(s, e).loading
  {
  }

  /** Two overlapping calls: both start, then settle in some order. The state afterwards is fixed by
      the call that settled last (its error, or its result); only when that call failed does the
      earlier settlement's result, or the data from before both calls, survive. */
  lemma LastSettledWins<T>(s: ApiState<T>, settledFirst: Outcome<T>, settledLast: Outcome<T>)
    ensures var final := Settled(Settled(Begun(Begun(s)), settledFirst), settledLast);
      && !final.loading
      && final.error == (if settledLast.Rejected? then Some(settledLast.error) else None)
      && final.data == (if settledLast.Resolved? then Some(settledLast.value)
                        else if settledFirst.Resolved? then Some(settledFirst.value)
                        else s.data)
  {
  }

  /** When the first of two overlapping calls settles, `loading` is already false although the
      other call is still in flight. */
  lemma LoadingDropsBeforeLastSettlement<T>(s: ApiState<T>, settledFirst: Outcome<T>)
    ensures !Settled(Begun(Begun(s)), settledFirst).loading
  {
  }

  /** The state behind one `useApi(...)` or `useAsyncOperation()` call site. */
  class ApiHook<T> {
    var state: ApiState<T>

    /** Mounting: with `immediate` set, `execute()` is started once with no arguments. */
    constructor (immediate: bool)
      ensures state == if immediate then Begun(Idle()) else Idle()
    {
      state := Idle();
      new;
      if immediate {
        Begin();
      }
    }

    /** The first `setState` of `execute`. */
    method Begin()
      modifies this
      ensures state == Begun(old(state))
    {
      state := state.(loading := true, error := None);
    }

    /** The `setState` on the success path, before `onSuccess` runs. */
    method Resolve(result: T)
      modifies this
      ensures state == Succeeded(result)
    {
      state := ApiState(Some(result), false, None);
    }

    /** The `setState` in the `catch` block, before `onError` runs and the error is rethrown. */
    method Reject(e: ApiError)
      modifies this
      ensures state == Failed(old(state), e)
    {
      state := state.(loading := false, error := Some(e));
    }

    /** The settlement of a call whose callbacks do nothing (or that has none, as in
        `useAsyncOperation`): the result is returned, or the error rethrown. */
    method Settle(outcome: Outcome<T>) returns (r: Result<T, ApiError>)
      modifies this
      ensures state == Settled(old(state), outcome)
      ensures outcome.Resolved? ==> r == Ok(outcome.value)
      ensures outcome.Rejected? ==> r == Err(outcome.error)
    {
      match outcome
      case Resolved(v) =>
        Resolve(v);
        r := Ok(v);
      case Rejected(e) =>
        Reject(e);
        r := Err(e);
    }

    /** `reset()`: back to the initial state from any state. */
    method Reset()
      modifies this
      ensures state == Idle()
    {
      state := ApiState(None, false, None);
    }
  }
}
