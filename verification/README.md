# Mutation lifecycle controller — a Dafny model

This project models the mutation controller of a React binding for a GraphQL
client (`src/hooks/Mutation.ts`) and the operations-registry setup of its
provider (`src/hooks/Provider.ts`).

The controller owns three pieces of state:

- a result snapshot `{called, loading, data, error}`;
- the id of the most recent invocation;
- a `hasMounted` flag.

Calling the mutation function starts an invocation. Unless a mutation is
already loading or results are ignored, the snapshot becomes called and
loading. Then a fresh id is minted and the request is dispatched to the
executor. When the executor settles, the outcome is committed to the snapshot
only if the consumer is mounted and the id is still the most recent one. A
successful outcome is also skipped when results are ignored. While mounted,
the `onCompleted`/`onError` callback fires whether or not the outcome was
committed. The promise returned to the caller resolves with the raw response
on success. On failure it rejects only when there is no `onError` prop;
otherwise it resolves to `undefined`.

The model is functional. A `Controller` record and pure transition functions
return the new controller together with what became observable (the callback
that fired, how the promise settles). Asynchrony is expressed as explicit
event sequences (`Interleaving.Run` over mount, unmount, call and arrival
events). The lemmas there state what holds for any interleaving of
settlements.

Modules:

- `Base`: option/result wrappers and opaque values (JSON, documents, function values, clients, operations maps).
- `OperationKind`: the document-kind guard.
- `ResultState`: the snapshot and `setState`, a shallow merge.
- `Options`: props, per-call options, and `mutate`, which builds the request (variable merge, overrides, refetch-name resolution).
- `MutationController`: construction, mount flag, start, id minting, settlement.
- `Provider`: the provider constructor and the first-provider-wins operations cache.
- `Interleaving`: runs over event sequences.

Two behaviours of the code are easy to misread; the model follows the code:

- When the consumer is unmounted, a settling invocation returns before any callback (`Mutation.ts:163-165`, `182-184`), so neither `onCompleted` nor `onError` fires. As a consequence, a failure that arrives after unmounting, with an `onError` prop, is observable nowhere (`UnmountedErrorIsSwallowed`).
- The document kind is checked only in the constructor, not again when the document changes. The hook builds a new controller on every render, but that glue is outside this model.

## Model

| member | source | states |
|---|---|---|
| OperationKind.VerifyDocumentIsMutation | src/hooks/Mutation.ts:204-212 | passes iff the document is a mutation; otherwise the message ends in "query." for a query and "subscription." for a subscription |
| MutationController.New | src/hooks/Mutation.ts:46-56 | construction succeeds iff the document is a mutation, and then starts from the initial snapshot, id 0 and unmounted; otherwise it fails with the guard's message |
| ResultState.SetState | src/hooks/Mutation.ts:58-66 | shallow merge: keys present in the patch (even with an undefined value) take the patch's value, absent keys keep the old value |
| ResultState.SetStateComposes | src/hooks/Mutation.ts:58-66 | two successive merges equal one merge of the combined patch |
| ResultState.SetStateIdempotent | src/hooks/Mutation.ts:58-66 | merging a patch twice equals merging it once; the empty patch is the identity |
| MutationController.Start | src/hooks/Mutation.ts:69-71 | mounting sets the flag and leaves snapshot, id and client alone |
| MutationController.Finish | src/hooks/Mutation.ts:74-76 | unmounting clears the flag and leaves snapshot, id and client alone |
| MutationController.MountFlagIdempotent | src/hooks/Mutation.ts:69-76 | unmounting twice is unmounting once; mounting after unmounting is mounting |
| MutationController.Api | src/hooks/Mutation.ts:80-90 | the consumer's view carries exactly the snapshot's four fields and the controller's client |
| MutationController.OnMutationStart | src/hooks/Mutation.ts:151-160 | when not loading and results are not ignored, the snapshot becomes `{called, loading, no data, no error}`; otherwise it is unchanged; id and mount flag unchanged, and the mount flag is not consulted |
| MutationController.GenerateNewMutationId | src/hooks/Mutation.ts:195-202 | the new id is the previous one plus one (so the first is 1); it is the most recent id and no earlier id is |
| MutationController.RunMutation | src/hooks/Mutation.ts:92-96 | a call starts before minting: its snapshot is the start transition's, its id is previous+1, and its request is what `mutate` builds from its options |
| MutationController.LoadingVisibleAfterCall | src/hooks/Mutation.ts:92-94 | reading the state right after a call on an idle, non-ignoring controller shows called and loading with no data and no error |
| MutationController.ResponseError | src/hooks/Mutation.ts:168-170 | a response yields an error iff its errors list is present and non-empty, and that error carries exactly those GraphQL errors |
| MutationController.CallbackFor | src/hooks/Mutation.ts:172-186 | success calls `onCompleted` with the response data, failure calls `onError` with the error, each only when the prop is supplied |
| MutationController.Commit | src/hooks/Mutation.ts:174-189 | what the latest, mounted settlement writes: a success (unless results are ignored) sets not loading, the response data and the composed error, keeping `called`; a failure sets not loading and the error, keeping `data` and `called` |
| MutationController.OnMutationCompleted | src/hooks/Mutation.ts:162-179 | unmounted: nothing changes and no callback fires; mounted, latest and not ignoring: the snapshot becomes not loading with the response data and composed error, `called` kept; otherwise unchanged; `onCompleted` fires with the data while mounted |
| MutationController.OnMutationError | src/hooks/Mutation.ts:181-193 | unmounted: nothing changes and no callback fires; mounted and latest: not loading with the error, `data` and `called` kept, whatever `ignoreResults` says; stale: unchanged; `onError` fires while mounted when supplied |
| MutationController.PromiseFor | src/hooks/Mutation.ts:96-104 | success resolves with the raw response; failure rejects with the error iff there is no `onError`, otherwise resolves to undefined |
| MutationController.Settle | src/hooks/Mutation.ts:92-105 | a settlement commits only when mounted and latest, never touches id, mount flag or client, fires the outcome's callback only while mounted, and settles the promise the same way mounted or not |
| MutationController.UnmountedErrorIsSwallowed | src/hooks/Mutation.ts:181-184 | a failure arriving after unmount with an `onError` prop changes nothing, fires nothing, and resolves the promise to undefined |
| MutationController.TransitionsKeepConsistent | src/hooks/Mutation.ts:151-193 | start and settlement keep "loading implies called" |
| Options.ResolveItem | src/hooks/Mutation.ts:128-131 | a name registered in the operations map becomes its registered query; an unregistered name, any name without a map, and an explicit query pass through unchanged |
| Options.ResolveItems | src/hooks/Mutation.ts:127-132 | resolving a list keeps its length and order and resolves each entry on its own |
| Options.RefetchTargets | src/hooks/Mutation.ts:118-134 | per-call refetch targets replace the prop's; a function passes through; a list keeps length and order, each entry unchanged or a name replaced by its registered query |
| Options.ResolveRefetchIdempotent | src/hooks/Mutation.ts:127-132 | resolving an already resolved refetch value changes nothing |
| Options.Mutate | src/hooks/Mutation.ts:107-149 | variables are prop variables overlaid by per-call variables (per-call keys win, no key lost or invented); every other per-call option overrides the prop; context defaults to `{}` and awaitRefetchQueries to false |
| Options.OptionsActAsProps | src/hooks/Mutation.ts:107-149 | calling with per-call options builds the same request as calling with no options on props that were given those values |
| Options.VariablesMergeExample | src/hooks/Mutation.ts:136 | `{a:1, b:2}` overlaid by `{b:3, c:4}` gives `{a:1, b:3, c:4}` |
| Provider.New | src/hooks/Provider.ts:16-36 | fails with the missing-client message iff there is no client; the provider's own map is new and empty; the client's cache is set to it only when absent; the context pairs the client with the client's cache |
| Provider.FirstProviderWins | src/hooks/Provider.ts:28-35 | over any number of providers built on one client, the first attached map (an earlier cache, or the first provider's map) stays on the client, and every provider's context offers that map |
| Provider.LaterProvidersOfferAnotherMap | src/hooks/Provider.ts:14-35 | when every provider's `new Map()` is a distinct object, no provider after the first (nor the first, if the client already had a cache) offers its own map in its context |
| Interleaving.IdsCountCalls | src/hooks/Mutation.ts:195-198 | over any run, the most recent id grows by exactly the number of calls and the client never changes |
| Interleaving.DispatchedIdsIncrease | src/hooks/Mutation.ts:92-96 | exactly the calls dispatch, each with `mutate`'s request, under fresh ids that strictly increase along the run |
| Interleaving.StartIsIdempotent | src/hooks/Mutation.ts:151-160 | a second start leaves the snapshot as the first left it |
| Interleaving.CallBurst | src/hooks/Mutation.ts:92-94 | a burst of calls leaves the snapshot as after one start and advances the id by the number of calls |
| Interleaving.LatestWins | src/hooks/Mutation.ts:162-202 | arrivals in any order while mounted, one per invocation: only the most recent id's outcome is committed (or nothing if it has not arrived), and every arrival delivers its own callback and promise |
| Interleaving.CallsThenArrivals | src/hooks/Mutation.ts:92-202 | after N calls and their arrivals in any order, the snapshot is the highest id's outcome committed over the loading snapshot |
| Interleaving.TwoCallsSecondDataWins | test/client/hooks/useMutation.test.tsx:232-269 | two calls answered 99 and 100, in either arrival order, end with data 100, not loading, called, and `onCompleted` fired once per arrival with its data |
| Interleaving.UnmountedArrivalsAreInert | src/hooks/Mutation.ts:162-193 | after unmounting, arrivals change nothing and fire no callback, while promises still settle by outcome |
| Interleaving.IgnoredResultsNeverLoad | src/hooks/Mutation.ts:151-193 | with results ignored, no run makes the snapshot loading or changes its data |
| Interleaving.RunKeepsConsistent | src/hooks/Mutation.ts:151-193 | every run keeps "loading implies called" |

## Left out

- The executor (`client.mutate`) is not modelled. That covers network I/O, optimistic-store writes, `update` callbacks and refetching. Each invocation's result is an opaque settled outcome: a response `{data, errors}` or a failure.
- Asynchrony is not modelled as concurrency. Promises are explicit outcome values, and interleavings are explicit event sequences.
- `getClient` (choosing between the prop client and the context client) is not modelled. The controller's client is a parameter of construction.
- The document parser is not modelled. Its verdict is an input of the kind guard.
- `ApolloError` construction is not modelled. The composed error simply carries the GraphQL error list.
- The React hook glue (`use-mutation.ts`, `use-provider.ts`, `use-query.ts`) is framework wiring and is left out. So is `React.createContext`: the provider's context is modelled as the plain value it is created with.
- The query controller (`src/hooks/Query.ts`) is not part of this model. Neither is the registration of operations into the provider's map.
- Options.Mutate: a per-call key that is present with the value `undefined` is treated as absent. In the code, the object spread would copy that `undefined` over the prop's value. Only keys that are absent or carry a value are modelled.
- Options.Mutate: only the per-call options that the props also carry are modelled (variables, optimistic response, refetch targets, await flag, update, context). Other keys of the options type are spread into the request unchanged by the code, but that type is defined in a file that is not part of this model.
- MutationController.Settle: user callbacks are assumed not to throw. In the code, an exception thrown by `onCompleted` would be caught by the same `.catch` and routed through the error path.
- MutationController.Settle: the order between the state commit and the callback is not modelled. `setState` runs its callback synchronously after the merge.
- MutationController.GenerateNewMutationId: ids are unbounded integers. The source's counter is a JavaScript number, which is exact only up to 2^53. Beyond that, `id + 1` equals `id`, later invocations would share one id, and all of them would count as most recent. So "strictly increasing" (here and in `Interleaving.DispatchedIdsIncrease`) holds of the source only for fewer than 2^53 calls.
- Provider.New: map identity is modelled by a tag chosen by the caller. That each `new Map()` is a fresh object is not built into `New`; it is the hypothesis `FreshMaps` of `Provider.LaterProvidersOfferAnotherMap`.
