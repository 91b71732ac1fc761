/**
  The provider's constructor: it requires a client, attaches its own (empty)
  operations map to the client unless the client already carries one, and
  offers `{client, operations}` as the context value. Object identity is
  modelled explicitly: the client returned is the same client after the
  constructor's write, and each operations map carries its own tag.
 */
module Provider {
  import opened Base

  datatype ProviderProps = ProviderProps(client: Option<Client>)

  /** The value the provider's context offers to controllers below it. */
  datatype ContextValue = ContextValue(client: Client, operations: OperationsMap)

  datatype ApolloProvider = ApolloProvider(operations: OperationsMap, context: ContextValue)

  /** A constructed provider, with its client as the constructor left it. */
  datatype Construction = Construction(provider: ApolloProvider, client: Client)

  const MissingClient: string :=
    "ApolloProvider was not passed a client instance. Make sure you pass in your client via the \"client\" prop."

  /**
    Construct a provider whose own operations map is the new, empty map
    tagged `mapTag`. Fails without a client. The client's operations cache is
    set to the provider's map only when it has none; the context pairs the
    client with the client's cache, which is an earlier provider's map when
    one was already attached.
   */
  function New(props: ProviderProps, mapTag: nat): (r: Result<Construction, string>)
    ensures r.Err? <==> props.client.None?
    ensures r.Err? ==> r.error == MissingClient
    ensures r.Ok? ==> r.value.provider.operations == OperationsMap(mapTag, map[])
    ensures r.Ok? && props.client.value.operationsCache.None? ==>
      r.value.client == props.client.value.(operationsCache := Some(OperationsMap(mapTag, map[])))
    ensures r.Ok? && props.client.value.operationsCache.Some? ==> r.value.client == props.client.value
    ensures r.Ok? ==>
      && r.value.client.operationsCache.Some?
      && r.value.provider.context == ContextValue(r.value.client, r.value.client.operationsCache.value)
  {
    match props.client
    case None => Err(MissingClient)
    case Some(client) =>
      var operations := OperationsMap(mapTag, map[]);
      var client' := if client.operationsCache.None? then client.(operationsCache := Some(operations)) else client;
      Ok(Construction(ApolloProvider(operations, ContextValue(client', client'.operationsCache.value)), client'))
  }

  /**
    Providers constructed one after another over the same client, the k-th
    with its own map tagged `mapTags[k]`: the client as it ends up, and the
    context value of each provider.
   */
  function ConstructAll(client: Client, mapTags: seq<nat>): (r: (Client, seq<ContextValue>))
    ensures |r.1| == |mapTags|
    decreases |mapTags|
  {
    if mapTags == [] then (client, [])
    else
      var made := New(ProviderProps(Some(client)), mapTags[0]).value;
      var rest := ConstructAll(made.client, mapTags[1..]);
      (rest.0, [made.provider.context] + rest.1)
  }

  /**
    The first provider's map wins: whichever map the client carries after the
    first construction (its earlier cache, or the first provider's map) stays
    attached through every later construction, and every provider's context
    offers that map.
   */
  lemma {:induction false} FirstProviderWins(client: Client, mapTags: seq<nat>)
    requires |mapTags| > 0
    decreases |mapTags|
    ensures var winner := if client.operationsCache.Some? then client.operationsCache.value
                          else OperationsMap(mapTags[0], map[]);
      var r := ConstructAll(client, mapTags);
      && r.0 == client.(operationsCache := Some(winner))
      && forall k :: 0 <= k < |r.1| ==> r.1[k] == ContextValue(r.0, winner)
  {
    var winner := if client.operationsCache.Some? then client.operationsCache.value
                  else OperationsMap(mapTags[0], map[]);
    var first := New(ProviderProps(Some(client)), mapTags[0]).value;
    assert first.client == client.(operationsCache := Some(winner));
    if |mapTags| > 1 {
      FirstProviderWins(first.client, mapTags[1..]);
    }
  }

  /**
    Every `new Map()` is a distinct object: the map tags handed to the
    providers differ from one another and from a cache the client already
    carries.
   */
  predicate FreshMaps(client: Client, mapTags: seq<nat>) {
    && (forall i, j :: 0 <= i < j < |mapTags| ==> mapTags[i] != mapTags[j])
    && (client.operationsCache.Some? ==> forall k :: 0 <= k < |mapTags| ==> mapTags[k] != client.operationsCache.value.tag)
  }

  /**
    With fresh maps, no provider after the first one (and not even the first
    one, when the client already had a cache) offers its own map in its
    context: it offers the map that was attached before it.
   */
  lemma LaterProvidersOfferAnotherMap(client: Client, mapTags: seq<nat>)
    requires |mapTags| > 0
    requires FreshMaps(client, mapTags)
    ensures var r := ConstructAll(client, mapTags);
      forall k :: 0 <= k < |mapTags| && (k > 0 || client.operationsCache.Some?) ==>
        r.1[k].operations != OperationsMap(mapTags[k], map[])
  {
    FirstProviderWins(client, mapTags);
  }
}
