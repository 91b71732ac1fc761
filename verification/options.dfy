/**
  The mutation's configuration and `mutate`, which merges the fixed props with
  the options of one call into the request handed to the executor.
 */
module Options {
  import opened Base

  /** One refetch target: an operation name to look up, or an explicit query. */
  datatype RefetchItem = ByName(name: string) | ByQuery(query: PureQuery)

  /** `refetchQueries`: an array of targets, or a function that provides them. */
  datatype RefetchQueries = RefetchList(items: seq<RefetchItem>) | RefetchProvider(provider: FunctionRef)

  /** The props a mutation controller is created with; `None` is an omitted prop. */
  datatype MutationProps = MutationProps(
    mutation: Document,
    ignoreResults: Option<bool>,
    optimisticResponse: Option<Json>,
    variables: Option<Variables>,
    refetchQueries: Option<RefetchQueries>,
    awaitRefetchQueries: Option<bool>,
    update: Option<FunctionRef>,
    onCompleted: Option<FunctionRef>,
    onError: Option<FunctionRef>,
    context: Option<Context>)

  /** The options of one call of the mutation function; `None` is an absent key. */
  datatype MutationOptions = MutationOptions(
    variables: Option<Variables>,
    optimisticResponse: Option<Json>,
    refetchQueries: Option<RefetchQueries>,
    awaitRefetchQueries: Option<bool>,
    update: Option<FunctionRef>,
    context: Option<Context>)

  /** The call made without arguments: `options = {}`. */
  const NoOptions: MutationOptions := MutationOptions(None, None, None, None, None, None)

  /** The request handed to the executor. */
  datatype Request = Request(
    mutation: Document,
    optimisticResponse: Option<Json>,
    refetchQueries: Option<RefetchQueries>,
    awaitRefetchQueries: bool,
    update: Option<FunctionRef>,
    context: Context,
    variables: Variables)

  /** `!props.ignoreResults`, negated: only an explicit `true` ignores results. */
  predicate IgnoresResults(props: MutationProps) {
    props.ignoreResults == Some(true)
  }

  /** A variables record as `Object.assign` reads it: `undefined` contributes no keys. */
  function VariablesOf(v: Option<Variables>): Variables {
    v.GetOr(map[])
  }

  /** The per-call value when supplied, else the prop value. */
  function Override<T>(call: Option<T>, prop: Option<T>): Option<T> {
    if call.Some? then call else prop
  }

  /**
    One refetch target as the mutate step passes it on: a name registered in
    the operations map becomes the registered query; every other target,
    including a name that is not registered or any name when there is no map,
    is passed on unchanged.
   */
  function ResolveItem(x: RefetchItem, operations: Option<Registry>): (r: RefetchItem)
    ensures x.ByQuery? ==> r == x
    ensures x.ByName? && operations.Some? && x.name in operations.value ==>
      r == ByQuery(operations.value[x.name])
    ensures x.ByName? && (operations.None? || x.name !in operations.value) ==> r == x
    ensures r.ByName? ==> r == x
  {
    match x
    case ByName(name) =>
      if operations.Some? && name in operations.value then ByQuery(operations.value[name]) else x
    case ByQuery(_) => x
  }

  /** Every target of the list resolved, in order. */
  function ResolveItems(xs: seq<RefetchItem>, operations: Option<Registry>): (r: seq<RefetchItem>)
    ensures |r| == |xs|
    ensures forall i :: 0 <= i < |xs| ==> r[i] == ResolveItem(xs[i], operations)
  {
    if xs == [] then [] else [ResolveItem(xs[0], operations)] + ResolveItems(xs[1..], operations)
  }

  /**
    The refetch value of a request: a non-empty array has its names resolved;
    an empty array, a provider function and an absent value pass through.
   */
  function ResolveRefetch(chosen: Option<RefetchQueries>, operations: Option<Registry>): Option<RefetchQueries> {
    if chosen.Some? && chosen.value.RefetchList? && |chosen.value.items| > 0 then
      Some(RefetchList(ResolveItems(chosen.value.items, operations)))
    else
      chosen
  }

  /** The request built for one call: `mutate(options)`. */
  function Mutate(props: MutationProps, options: MutationOptions, operations: Option<Registry>): (r: Request)
    ensures r.mutation == props.mutation
    ensures var pv := VariablesOf(props.variables); var ov := VariablesOf(options.variables);
      && (forall k :: k in r.variables <==> k in pv || k in ov)
      && (forall k :: k in ov ==> r.variables[k] == ov[k])
      && (forall k :: k in pv && k !in ov ==> r.variables[k] == pv[k])
    ensures options.optimisticResponse.Some? ==> r.optimisticResponse == options.optimisticResponse
    ensures options.optimisticResponse.None? ==> r.optimisticResponse == props.optimisticResponse
    ensures options.update.Some? ==> r.update == options.update
    ensures options.update.None? ==> r.update == props.update
    ensures options.context.Some? ==> r.context == options.context.value
    ensures options.context.None? ==> r.context == props.context.GetOr(map[])
    ensures options.awaitRefetchQueries.Some? ==> r.awaitRefetchQueries == options.awaitRefetchQueries.value
    ensures options.awaitRefetchQueries.None? ==> r.awaitRefetchQueries == props.awaitRefetchQueries.GetOr(false)
    ensures r.refetchQueries == ResolveRefetch(Override(options.refetchQueries, props.refetchQueries), operations)
  {
    var refetchQueries := ResolveRefetch(Override(options.refetchQueries, props.refetchQueries), operations);
    Request(
      props.mutation,
      Override(options.optimisticResponse, props.optimisticResponse),
      refetchQueries,
      Override(options.awaitRefetchQueries, Some(props.awaitRefetchQueries.GetOr(false))).value,
      Override(options.update, props.update),
      Override(options.context, Some(props.context.GetOr(map[]))).value,
      VariablesOf(props.variables) + VariablesOf(options.variables))
  }

  /**
    The refetch targets of a request: per-call targets replace the prop's
    (no merging); a function passes through unchanged; an array keeps its
    length and order, and each entry is either the prop's entry unchanged or
    a name replaced by the query registered under it.
   */
  lemma RefetchTargets(props: MutationProps, options: MutationOptions, operations: Option<Registry>)
    ensures var chosen := if options.refetchQueries.Some? then options.refetchQueries else props.refetchQueries;
      var r := Mutate(props, options, operations).refetchQueries;
      && (chosen.None? ==> r.None?)
      && (chosen.Some? && chosen.value.RefetchProvider? ==> r == chosen)
      && (chosen.Some? && chosen.value.RefetchList? ==>
            && r.Some? && r.value.RefetchList?
            && |r.value.items| == |chosen.value.items|
            && forall i :: 0 <= i < |r.value.items| ==>
                 var x := chosen.value.items[i];
                 && (x.ByQuery? ==> r.value.items[i] == x)
                 && (x.ByName? && operations.Some? && x.name in operations.value ==>
                       r.value.items[i] == ByQuery(operations.value[x.name]))
                 && (x.ByName? && (operations.None? || x.name !in operations.value) ==>
                       r.value.items[i] == x))
  {
  }

  /** Resolving an already resolved refetch value changes nothing more. */
  lemma {:induction false} ResolveRefetchIdempotent(chosen: Option<RefetchQueries>, operations: Option<Registry>)
    ensures ResolveRefetch(ResolveRefetch(chosen, operations), operations) == ResolveRefetch(chosen, operations)
  {
    if chosen.Some? && chosen.value.RefetchList? && |chosen.value.items| > 0 {
      var once := ResolveItems(chosen.value.items, operations);
      var twice := ResolveItems(once, operations);
      forall i | 0 <= i < |once|
        ensures twice[i] == once[i]
      {
        var x := chosen.value.items[i];
        assert once[i] == ResolveItem(x, operations);
      }
      assert twice == once;
    }
  }

  /** The props as they read after the per-call options are laid over them. */
  function WithOptions(props: MutationProps, options: MutationOptions): MutationProps {
    props.(
      variables := Some(VariablesOf(props.variables) + VariablesOf(options.variables)),
      optimisticResponse := Override(options.optimisticResponse, props.optimisticResponse),
      refetchQueries := Override(options.refetchQueries, props.refetchQueries),
      awaitRefetchQueries := Override(options.awaitRefetchQueries, props.awaitRefetchQueries),
      update := Override(options.update, props.update),
      context := Override(options.context, props.context))
  }

  /**
    Per-call options behave exactly like props that were given those values:
    calling with `options` builds the same request as calling without
    arguments on the overlaid props.
   */
  lemma OptionsActAsProps(props: MutationProps, options: MutationOptions, operations: Option<Registry>)
    ensures Mutate(props, options, operations) == Mutate(WithOptions(props, options), NoOptions, operations)
  {
    var a := Mutate(props, options, operations);
    var b := Mutate(WithOptions(props, options), NoOptions, operations);
    assert a.variables == b.variables;
  }

  /** A worked merge: `{a:1, b:2}` under `{b:3, c:4}` is `{a:1, b:3, c:4}`. */
  lemma VariablesMergeExample(props: MutationProps, operations: Option<Registry>)
    requires props.variables == Some(map["a" := Json(1), "b" := Json(2)])
    ensures Mutate(props, NoOptions.(variables := Some(map["b" := Json(3), "c" := Json(4)])), operations).variables
         == map["a" := Json(1), "b" := Json(3), "c" := Json(4)]
  {
  }
}
