/**
  The result snapshot the mutation controller owns, and `setState`, a shallow
  merge of a partial record into it.
 */
module ResultState {
  import opened Base

  /** What a consumer of the controller sees: whether it ran, is running, and its last result. */
  datatype Snapshot = Snapshot(called: bool, loading: bool, data: Option<Json>, error: Option<ApolloError>)

  /** The state a controller starts in. */
  const Initial: Snapshot := Snapshot(false, false, None, None)

  /**
    A partial record handed to `setState`. A field is `Some(v)` when the key
    is present in the object literal (its value `v` may itself be `undefined`),
    and `None` when the key is absent.
   */
  datatype Patch = Patch(
    called: Option<bool>,
    loading: Option<bool>,
    data: Option<Option<Json>>,
    error: Option<Option<ApolloError>>)

  /** The empty object literal. */
  const NoChange: Patch := Patch(None, None, None, None)

  /** The right-hand value when present, otherwise the left one: one field of an object spread. */
  function Overlay<T>(base: Option<T>, top: Option<T>): Option<T> {
    if top.Some? then top else base
  }

  /**
    `{...s, ...p}`: keys present in the patch take the patch's value, every
    other field keeps its value.
   */
  function SetState(s: Snapshot, p: Patch): (r: Snapshot)
    ensures p.called.Some? ==> r.called == p.called.value
    ensures p.called.None? ==> r.called == s.called
    ensures p.loading.Some? ==> r.loading == p.loading.value
    ensures p.loading.None? ==> r.loading == s.loading
    ensures p.data.Some? ==> r.data == p.data.value
    ensures p.data.None? ==> r.data == s.data
    ensures p.error.Some? ==> r.error == p.error.value
    ensures p.error.None? ==> r.error == s.error
  {
    Snapshot(
      p.called.GetOr(s.called),
      p.loading.GetOr(s.loading),
      p.data.GetOr(s.data),
      p.error.GetOr(s.error))
  }

  /** The patch whose single application has the effect of applying `p`, then `q`. */
  function Then(p: Patch, q: Patch): Patch {
    Patch(
      Overlay(p.called, q.called),
      Overlay(p.loading, q.loading),
      Overlay(p.data, q.data),
      Overlay(p.error, q.error))
  }

  /** Two successive merges are one merge of the combined patch. */
  lemma SetStateComposes(s: Snapshot, p: Patch, q: Patch)
    ensures SetState(SetState(s, p), q) == SetState(s, Then(p, q))
  {
  }

  /** Merging the same patch twice is the same as merging it once, and the empty patch changes nothing. */
  lemma SetStateIdempotent(s: Snapshot, p: Patch)
    ensures SetState(SetState(s, p), p) == SetState(s, p)
    ensures SetState(s, NoChange) == s
  {
  }

  /** The invariant every reachable snapshot keeps: a running mutation has been called. */
  predicate Consistent(s: Snapshot) {
    s.loading ==> s.called
  }
}
