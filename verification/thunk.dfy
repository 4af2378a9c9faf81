/** The asynchronous-operation lifecycle shared by every slice. Each thunk
    makes one HTTP call and dispatches `pending` before it, then either
    `fulfilled` with the response body or `rejected` with a message taken
    from the error response, falling back to a fixed per-operation string. */
module Thunk {
  import opened Nullable

  /** The fields of an error response body that a thunk may read; each is
      absent when the server leaves it out. */
  datatype ErrorData = ErrorData(message: Option<string>, error: Option<string>)

  /** Which field of the error body a thunk takes its message from. */
  datatype MessageField = MessageKey | ErrorKey

  /** Outcome of the HTTP call: the response body, or a failure. A failure
      carries the error response body when the server answered at all
      (`error.response?.data` is absent on a network error). */
  datatype Response<+T> = Ok(data: T) | Failed(body: Option<ErrorData>)

  /** The three actions of one thunk invocation. */
  datatype AsyncAction<+T> = Pending | Fulfilled(payload: T) | Rejected(message: string)

  /** `error.response?.data?.message` (or `?.error`): the server's message,
      if the server answered and filled that field. */
  function ServerMessage(body: Option<ErrorData>, field: MessageField): (m: Option<string>)
    ensures body.None? ==> m.None?
    ensures body.Some? && field.MessageKey? ==> m == body.value.message
    ensures body.Some? && field.ErrorKey? ==> m == body.value.error
  {
    match body
    case None => None
    case Some(d) => if field.MessageKey? then d.message else d.error
  }

  /** The action a thunk dispatches once its HTTP call has completed: the
      body on success, otherwise `rejectWithValue(serverMessage || fallback)`. */
  function Settle<T>(resp: Response<T>, field: MessageField, fallback: string): (a: AsyncAction<T>)
    ensures !a.Pending?
    ensures a.Fulfilled? <==> resp.Ok?
    ensures a.Fulfilled? ==> a.payload == resp.data
    ensures a.Rejected? && Truthy(ServerMessage(resp.body, field)) ==>
              a.message == ServerMessage(resp.body, field).value
    ensures a.Rejected? && !Truthy(ServerMessage(resp.body, field)) ==> a.message == fallback
    ensures fallback != "" ==> Dispatchable(a)
  {
    match resp
    case Ok(data) => Fulfilled(data)
    case Failed(body) => Rejected(OrElse(ServerMessage(body, field), fallback))
  }

  /** The message a failed request is rejected with: the server's field
      when it is present and non-empty, otherwise the fallback. */
  function RejectionMessage(body: Option<ErrorData>, field: MessageField, fallback: string): string
  {
    var m := ServerMessage(body, field);
    if m.Some? && |m.value| > 0 then m.value else fallback
  }

  /** What a thunk of this code base can dispatch: every fallback string is
      non-empty, so a rejection always carries a non-empty message. */
  predicate Dispatchable<T>(a: AsyncAction<T>)
  {
    a.Rejected? ==> a.message != ""
  }

  /** The state after applying `acts` in order, starting from `s`. The store
      applies actions one at a time in whatever order they are dispatched. */
  function Replay<S, A>(reduce: (S, A) -> S, s: S, acts: seq<A>): S
    decreases |acts|
  {
    if |acts| == 0 then s
    else reduce(Replay(reduce, s, acts[..|acts| - 1]), acts[|acts| - 1])
  }

  /** Replaying two sequences one after the other is replaying their
      concatenation: the state carries everything the actions so far did. */
  lemma {:induction false} ReplayConcat<S, A>(reduce: (S, A) -> S, s: S, xs: seq<A>, ys: seq<A>)
    ensures Replay(reduce, s, xs + ys) == Replay(reduce, Replay(reduce, s, xs), ys)
    decreases |ys|
  {
    if |ys| == 0 {
      assert xs + ys == xs;
    } else {
      var zs := xs + ys;
      ReplayConcat(reduce, s, xs, ys[..|ys| - 1]);
      assert zs[..|zs| - 1] == xs + ys[..|ys| - 1];
      assert zs[|zs| - 1] == ys[|ys| - 1];
    }
  }
}
