/**
  The document-kind guard the mutation controller runs at construction. The
  parser that classifies a document is not modelled: its verdict is an input.
 */
module OperationKind {
  import opened Base

  /** What the parser reports a document's operation to be. */
  datatype DocumentType = Query | Mutation | Subscription

  const MutationRequired: string := "The <Mutation /> component requires a graphql mutation, but got a "

  /**
    Passes for a mutation; otherwise fails with a message naming the kind
    found, which says "query" for a query and "subscription" for anything else.
   */
  function VerifyDocumentIsMutation(kind: DocumentType): (r: Outcome<string>)
    ensures r.Pass? <==> kind == Mutation
    ensures kind == Query ==>
      r == Fail(MutationRequired + "query.")
    ensures kind == Subscription ==>
      r == Fail(MutationRequired + "subscription.")
  {
    if kind == Mutation then Pass
    else if kind == Query then Fail(MutationRequired + "query.")
    else Fail(MutationRequired + "subscription.")
  }
}
