/** MviBase.kt: the state holder every view-model is built on, and the
    LoadingState wrapper. */
module MviBase {
  import Wrappers
  import opened ApiModels

  /** The state, side-effect channel and coroutine scope of a view-model.
      `sideEffects` lists the effects sent to the channel, oldest first;
      `launched` lists the coroutines started in viewModelScope that have
      not run yet. */
  class MviViewModel<S, E, J> {
    var state: S
    var sideEffects: seq<E>
    var launched: seq<J>

    constructor(initialState: S)
      ensures state == initialState && sideEffects == [] && launched == []
    {
      state := initialState;
      sideEffects := [];
      launched := [];
    }

    /** setState: the state becomes reducer(currentState); nothing else changes. */
    method SetState(reducer: S -> S)
      modifies this
      ensures state == reducer(old(state))
      ensures sideEffects == old(sideEffects) && launched == old(launched)
    {
      state := reducer(state);
    }

    /** emitSideEffect: the effect is sent after every earlier one. */
    method EmitSideEffect(sideEffect: E)
      modifies this
      ensures sideEffects == old(sideEffects) + [sideEffect]
      ensures state == old(state) && launched == old(launched)
    {
      sideEffects := sideEffects + [sideEffect];
    }

    /** viewModelScope.launch: the coroutine is started and runs later. */
    method Launch(job: J)
      modifies this
      ensures launched == old(launched) + [job]
      ensures state == old(state) && sideEffects == old(sideEffects)
    {
      launched := launched + [job];
    }

    /** The scheduler picks the k-th started coroutine to run. */
    method TakeJob(k: nat) returns (job: J)
      requires k < |launched|
      modifies this
      ensures job == old(launched)[k]
      ensures launched == old(launched)[..k] + old(launched)[k + 1..]
      ensures state == old(state) && sideEffects == old(sideEffects)
    {
      job := launched[k];
      launched := launched[..k] + launched[k + 1..];
    }
  }

  datatype LoadingState<T> =
    | Idle
    | Loading
    | Success(data: T)
    | Error(exception: Throwable, message: string)
  {
    predicate IsLoading() { this.Loading? }
    predicate IsSuccess() { this.Success? }
    predicate IsError() { this.Error? }
    predicate IsIdle() { this.Idle? }
  }

  /** `LoadingState.Error(exception)`, whose message defaults to the
      exception's message or "Unknown error". */
  function ErrorOf<T>(exception: Throwable): (s: LoadingState<T>)
    ensures s.IsError() && s.exception == exception
    ensures exception.message.Some? ==> s.message == exception.message.value
    ensures exception.message.None? ==> s.message == "Unknown error"
  {
    Error(exception, MessageOr(exception, "Unknown error"))
  }

  /** Exactly one of the four status flags holds. */
  lemma ExactlyOneStatus<T>(s: LoadingState<T>)
    ensures s.IsLoading() || s.IsSuccess() || s.IsError() || s.IsIdle()
    ensures !(s.IsLoading() && s.IsSuccess()) && !(s.IsLoading() && s.IsError()) && !(s.IsLoading() && s.IsIdle())
    ensures !(s.IsSuccess() && s.IsError()) && !(s.IsSuccess() && s.IsIdle()) && !(s.IsError() && s.IsIdle())
  {
  }

  /** getDataOrNull: the data of a Success, else null. */
  function GetDataOrNull<T>(s: LoadingState<T>): (r: Wrappers.Option<T>)
    ensures r.Some? <==> s.IsSuccess()
    ensures r.Some? ==> r.value == s.data
  {
    match s
    case Success(d) => Wrappers.Some(d)
    case _ => Wrappers.None
  }

  /** getErrorOrNull: the message of an Error, else null. */
  function GetErrorOrNull<T>(s: LoadingState<T>): (r: Wrappers.Option<string>)
    ensures r.Some? <==> s.IsError()
    ensures r.Some? ==> r.value == s.message
  {
    match s
    case Error(_, m) => Wrappers.Some(m)
    case _ => Wrappers.None
  }
}
