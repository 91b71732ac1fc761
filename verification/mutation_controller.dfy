/**
  The mutation controller: a snapshot, the id of the most recent invocation
  and a mounted flag, with the transitions that start an invocation, mint its
  id and settle it. Each transition returns the new controller together with
  what became observable (the callback that fired, how the returned promise
  settles), so asynchrony is expressed as explicit settle steps.
 */
module MutationController {
  import opened Base
  import opened ResultState
  import opened OperationKind
  import opened Options

  datatype Controller = Controller(
    client: Client,
    state: Snapshot,
    mostRecentMutationId: nat,
    hasMounted: bool)

  /** What the executor answers: GraphQL errors may accompany a successful response. */
  datatype Response = Response(data: Option<Json>, errors: Option<seq<GraphQLError>>)

  /** How the executor's promise settled. */
  datatype ExecutionOutcome = Succeeded(response: Response) | Failed(error: ApolloError)

  /** How the promise returned by the mutation function settles; `Resolves(None)` is `undefined`. */
  datatype Promise = Resolves(value: Option<Response>) | Rejects(reason: ApolloError)

  /** The user callback a settlement invoked, with its argument. */
  datatype CallbackCall =
    | NoCallback
    | CompletedCalled(onCompleted: FunctionRef, data: Option<Json>)
    | ErrorCalled(onError: FunctionRef, error: ApolloError)

  /** The result half of `api()`. */
  datatype MutateResult = MutateResult(
    called: bool,
    loading: bool,
    data: Option<Json>,
    error: Option<ApolloError>,
    client: Client)

  /** The synchronous part of one call of the mutation function. */
  datatype Invocation = Invocation(controller: Controller, id: nat, request: Request)

  /** One invocation's settlement. */
  datatype Settlement = Settlement(controller: Controller, callback: CallbackCall, promise: Promise)

  /**
    Construction: the document must be a mutation; the controller starts with
    the initial snapshot, no minted id, and unmounted. `parsed` is what the
    parser makes of `props.mutation`; `client` is the client chosen for it.
   */
  function New(props: MutationProps, client: Client, parsed: DocumentType): (r: Result<Controller, string>)
    ensures r.Ok? <==> parsed == Mutation
    ensures r.Ok? ==> r.value == Controller(client, Snapshot(false, false, None, None), 0, false)
    ensures r.Err? ==> VerifyDocumentIsMutation(parsed) == Fail(r.error)
  {
    match VerifyDocumentIsMutation(parsed)
    case Fail(message) => Err(message)
    case Pass => Ok(Controller(client, Initial, 0, false))
  }

  /** The consumer mounted. */
  function Start(c: Controller): (r: Controller)
    ensures r.hasMounted
    ensures r.state == c.state && r.mostRecentMutationId == c.mostRecentMutationId && r.client == c.client
  {
    c.(hasMounted := true)
  }

  /** The consumer unmounted. */
  function Finish(c: Controller): (r: Controller)
    ensures !r.hasMounted
    ensures r.state == c.state && r.mostRecentMutationId == c.mostRecentMutationId && r.client == c.client
  {
    c.(hasMounted := false)
  }

  /** Unmounting twice is unmounting once, and mounting undoes an unmount. */
  lemma MountFlagIdempotent(c: Controller)
    ensures Finish(Finish(c)) == Finish(c)
    ensures Start(Finish(c)) == Start(c)
  {
  }

  /** The snapshot, together with the client, as the consumer reads it. */
  function Api(c: Controller): (r: MutateResult)
    ensures r.called == c.state.called && r.loading == c.state.loading
    ensures r.data == c.state.data && r.error == c.state.error
    ensures r.client == c.client
  {
    MutateResult(c.state.called, c.state.loading, c.state.data, c.state.error, c.client)
  }

  /** The record merged in when an invocation starts. */
  const StartPatch: Patch := Patch(Some(true), Some(true), Some(None), Some(None))

  /**
    An invocation starts: unless a mutation is already loading or results are
    ignored, the snapshot becomes called and loading with no data and no
    error. The mounted flag is not consulted.
   */
  function OnMutationStart(c: Controller, props: MutationProps): (r: Controller)
    ensures !c.state.loading && !IgnoresResults(props) ==>
      r.state == Snapshot(true, true, None, None)
    ensures c.state.loading || IgnoresResults(props) ==> r.state == c.state
    ensures r.mostRecentMutationId == c.mostRecentMutationId
    ensures r.hasMounted == c.hasMounted && r.client == c.client
  {
    if !c.state.loading && !IgnoresResults(props) then c.(state := SetState(c.state, StartPatch)) else c
  }

  /** An id is the most recent one when it is the last one minted. */
  predicate IsMostRecentMutation(c: Controller, id: nat) {
    c.mostRecentMutationId == id
  }

  /**
    Mints the next id: one more than the last, so the first is 1. The new id
    is the most recent one and no earlier id is.
   */
  function GenerateNewMutationId(c: Controller): (r: (Controller, nat))
    ensures r.1 == c.mostRecentMutationId + 1
    ensures IsMostRecentMutation(r.0, r.1)
    ensures forall id: nat :: id <= c.mostRecentMutationId ==> !IsMostRecentMutation(r.0, id)
    ensures r.0.state == c.state && r.0.hasMounted == c.hasMounted && r.0.client == c.client
  {
    var id := c.mostRecentMutationId + 1;
    (c.(mostRecentMutationId := id), id)
  }

  /**
    The synchronous part of one call of the mutation function: start, then
    mint the id, then build the request from the per-call options and the
    operations map of the context at this moment.
   */
  function RunMutation(c: Controller, props: MutationProps, options: MutationOptions, operations: Option<Registry>): (r: Invocation)
    ensures r.id == c.mostRecentMutationId + 1 == r.controller.mostRecentMutationId
    ensures r.controller.state == OnMutationStart(c, props).state
    ensures r.controller.hasMounted == c.hasMounted && r.controller.client == c.client
    ensures r.request == Mutate(props, options, operations)
  {
    var (started, id) := GenerateNewMutationId(OnMutationStart(c, props));
    Invocation(started, id, Mutate(props, options, operations))
  }

  /** A caller reading the state right after calling the mutation function sees it loading. */
  lemma LoadingVisibleAfterCall(c: Controller, props: MutationProps, options: MutationOptions, operations: Option<Registry>)
    requires !c.state.loading && !IgnoresResults(props)
    ensures var view := Api(RunMutation(c, props, options, operations).controller);
      view.loading && view.called && view.data.None? && view.error.None?
  {
  }

  /** The error a response carries: composed from its GraphQL errors when there are any. */
  function ResponseError(response: Response): (r: Option<ApolloError>)
    ensures r.Some? <==> response.errors.Some? && |response.errors.value| > 0
    ensures r.Some? ==> r.value == GraphQLErrors(response.errors.value)
  {
    if response.errors.Some? && |response.errors.value| > 0 then Some(GraphQLErrors(response.errors.value)) else None
  }

  /** The user callback a mounted settlement invokes, when the props supply one. */
  function CallbackFor(props: MutationProps, outcome: ExecutionOutcome): (r: CallbackCall)
    ensures outcome.Succeeded? && props.onCompleted.Some? ==>
      r == CompletedCalled(props.onCompleted.value, outcome.response.data)
    ensures outcome.Failed? && props.onError.Some? ==> r == ErrorCalled(props.onError.value, outcome.error)
    ensures (outcome.Succeeded? && props.onCompleted.None?) || (outcome.Failed? && props.onError.None?) ==>
      r == NoCallback
  {
    match outcome
    case Succeeded(response) =>
      if props.onCompleted.Some? then CompletedCalled(props.onCompleted.value, response.data) else NoCallback
    case Failed(error) =>
      if props.onError.Some? then ErrorCalled(props.onError.value, error) else NoCallback
  }

  /**
    What a settlement does to the snapshot when it is the most recent one and
    the consumer is mounted. A success is not committed when results are
    ignored; a failure is committed regardless.
   */
  function Commit(s: Snapshot, props: MutationProps, outcome: ExecutionOutcome): (r: Snapshot)
    ensures outcome.Succeeded? && !IgnoresResults(props) ==>
      r == Snapshot(s.called, false, outcome.response.data, ResponseError(outcome.response))
    ensures outcome.Succeeded? && IgnoresResults(props) ==> r == s
    ensures outcome.Failed? ==> r == Snapshot(s.called, false, s.data, Some(outcome.error))
  {
    match outcome
    case Succeeded(response) =>
      if IgnoresResults(props) then s
      else SetState(s, Patch(None, Some(false), Some(response.data), Some(ResponseError(response))))
    case Failed(error) =>
      SetState(s, Patch(None, Some(false), None, Some(Some(error))))
  }

  /**
    The response arrived. Unmounted: nothing changes and no callback fires.
    Mounted: the most recent invocation, unless results are ignored, commits
    not-loading, the response data and the composed error (or none), leaving
    `called`; any other settles nothing into the snapshot. `onCompleted`
    fires with the data either way.
   */
  function OnMutationCompleted(c: Controller, props: MutationProps, response: Response, id: nat): (r: (Controller, CallbackCall))
    ensures !c.hasMounted ==> r.0 == c && r.1 == NoCallback
    ensures c.hasMounted && IsMostRecentMutation(c, id) && !IgnoresResults(props) ==>
      r.0.state == Snapshot(c.state.called, false, response.data, ResponseError(response))
    ensures c.hasMounted && (!IsMostRecentMutation(c, id) || IgnoresResults(props)) ==> r.0.state == c.state
    ensures c.hasMounted && props.onCompleted.Some? ==> r.1 == CompletedCalled(props.onCompleted.value, response.data)
    ensures props.onCompleted.None? ==> r.1 == NoCallback
    ensures r.0.mostRecentMutationId == c.mostRecentMutationId && r.0.hasMounted == c.hasMounted && r.0.client == c.client
  {
    if !c.hasMounted then (c, NoCallback)
    else
      var callback := CallbackFor(props, Succeeded(response));
      if IsMostRecentMutation(c, id) && !IgnoresResults(props) then
        (c.(state := Commit(c.state, props, Succeeded(response))), callback)
      else
        (c, callback)
  }

  /**
    The executor failed. Unmounted: nothing changes and no callback fires.
    Mounted: the most recent invocation commits not-loading and the error,
    leaving `data` and `called` (results being ignored does not matter here);
    any other changes nothing. `onError` fires either way when supplied.
   */
  function OnMutationError(c: Controller, props: MutationProps, error: ApolloError, id: nat): (r: (Controller, CallbackCall))
    ensures !c.hasMounted ==> r.0 == c && r.1 == NoCallback
    ensures c.hasMounted && IsMostRecentMutation(c, id) ==>
      r.0.state == Snapshot(c.state.called, false, c.state.data, Some(error))
    ensures c.hasMounted && !IsMostRecentMutation(c, id) ==> r.0.state == c.state
    ensures c.hasMounted && props.onError.Some? ==> r.1 == ErrorCalled(props.onError.value, error)
    ensures props.onError.None? ==> r.1 == NoCallback
    ensures r.0.mostRecentMutationId == c.mostRecentMutationId && r.0.hasMounted == c.hasMounted && r.0.client == c.client
  {
    if !c.hasMounted then (c, NoCallback)
    else
      var callback := CallbackFor(props, Failed(error));
      if IsMostRecentMutation(c, id) then (c.(state := Commit(c.state, props, Failed(error))), callback)
      else (c, callback)
  }

  /** How the returned promise settles: with the raw response; on failure, rejected only when there is no `onError`. */
  function PromiseFor(props: MutationProps, outcome: ExecutionOutcome): (r: Promise)
    ensures outcome.Succeeded? ==> r == Resolves(Some(outcome.response))
    ensures outcome.Failed? ==> (r.Rejects? <==> props.onError.None?)
    ensures r.Rejects? ==> outcome.Failed? && r.reason == outcome.error
    ensures outcome.Failed? && r.Resolves? ==> r.value.None?
  {
    match outcome
    case Succeeded(response) => Resolves(Some(response))
    case Failed(error) => if props.onError.None? then Rejects(error) else Resolves(None)
  }

  /**
    The continuation of invocation `id`: the completion or error handler,
    then the settlement of the returned promise, which does not depend on
    whether the consumer is still mounted.
   */
  function Settle(c: Controller, props: MutationProps, id: nat, outcome: ExecutionOutcome): (r: Settlement)
    ensures !c.hasMounted ==> r.controller == c && r.callback == NoCallback
    ensures c.hasMounted ==> r.callback == CallbackFor(props, outcome)
    ensures c.hasMounted && IsMostRecentMutation(c, id) ==> r.controller.state == Commit(c.state, props, outcome)
    ensures !IsMostRecentMutation(c, id) ==> r.controller == c
    ensures r.controller.mostRecentMutationId == c.mostRecentMutationId
    ensures r.controller.hasMounted == c.hasMounted && r.controller.client == c.client
    ensures r.promise == PromiseFor(props, outcome)
  {
    match outcome
    case Succeeded(response) =>
      var (c', callback) := OnMutationCompleted(c, props, response, id);
      Settlement(c', callback, Resolves(Some(response)))
    case Failed(error) =>
      var (c', callback) := OnMutationError(c, props, error, id);
      Settlement(c', callback, if props.onError.None? then Rejects(error) else Resolves(None))
  }

  /**
    A failure that settles after unmounting, with an `onError` prop, is
    observable nowhere: the snapshot is unchanged, no callback fires and the
    returned promise resolves to `undefined`.
   */
  lemma UnmountedErrorIsSwallowed(c: Controller, props: MutationProps, id: nat, error: ApolloError)
    requires !c.hasMounted && props.onError.Some?
    ensures var r := Settle(c, props, id, Failed(error));
      r.controller == c && r.callback == NoCallback && r.promise == Resolves(None)
  {
  }

  /** Every transition keeps a loading snapshot marked as called. */
  lemma TransitionsKeepConsistent(c: Controller, props: MutationProps, id: nat, outcome: ExecutionOutcome)
    requires Consistent(c.state)
    ensures Consistent(OnMutationStart(c, props).state)
    ensures Consistent(Settle(c, props, id, outcome).controller.state)
  {
  }
}
