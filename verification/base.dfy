/**
  Values shared by every part of the model: the option and result wrappers and
  the opaque values that the mutation controller only passes around (JSON
  payloads, documents, function values, clients and their operations maps).
 */
module Base {

  /** An optional value; `None` stands for JavaScript's `undefined`. */
  datatype Option<T> = None | Some(value: T) {

    /** The value, or `default` when it is absent (a destructuring default). */
    function GetOr(default: T): T {
      match this
      case Some(v) => v
      case None => default
    }
  }

  /** Either a value or the message of an invariant violation that was thrown. */
  datatype Result<R, E> = Ok(value: R) | Err(error: E)

  /** A check that either passes or throws with a message. */
  datatype Outcome<E> = Pass | Fail(error: E)

  /** A JSON value (response data, variable values, optimistic responses); its shape is not modelled. */
  datatype Json = Json(tag: nat)

  /** A parsed GraphQL document, known only by its identity. */
  datatype Document = Document(tag: nat)

  /** A JavaScript function value supplied by the caller (callbacks, update functions, refetch providers). */
  datatype FunctionRef = FunctionRef(tag: nat)

  /** Operation variables and the request context are string-keyed records. */
  type Variables = map<string, Json>
  type Context = map<string, Json>

  /** A query together with its variables, as registered under an operation name. */
  datatype PureQuery = PureQuery(query: Document, variables: Variables)

  /** Operation name to the query last registered under that name. */
  type Registry = map<string, PureQuery>

  /** A `Map` object: `tag` is its identity, `entries` its contents. */
  datatype OperationsMap = OperationsMap(tag: nat, entries: Registry)

  /** An execution client, with the operations cache a provider may have attached to it. */
  datatype Client = Client(tag: nat, operationsCache: Option<OperationsMap>)

  /** One entry of a GraphQL response's `errors` list. */
  datatype GraphQLError = GraphQLError(message: string)

  /**
    The error type surfaced to callers: either composed from a response's
    GraphQL errors, or the error the executor failed with.
   */
  datatype ApolloError =
    | GraphQLErrors(graphQLErrors: seq<GraphQLError>)
    | NetworkError(cause: nat)
}
