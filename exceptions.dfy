/** The service's exception hierarchy (`app/exceptions.py`) and the other
    exceptions that can travel through it.

    Python exceptions become values `Exc(kind, message)`, where `message`
    is what `str(e)` yields. The six classes of the service form the tree

        LLMAPIError
        ├── ClientError
        │   ├── LLMRefusalError
        │   └── InvalidModelError
        └── ServerError
            └── ConfigurationError

    Everything else that a call can raise (an SDK `APIError`, a `KeyError`,
    a `json.JSONDecodeError`, ...) is a `Foreign` kind: it is an `Exception`
    but an instance of none of the six classes. */
module Exceptions {

  import opened Options

  datatype Kind =
    | LLMAPIError
    | ClientError
    | LLMRefusalError
    | ServerError
    | InvalidModelError
    | ConfigurationError
      /** `openai.APIError` / `anthropic.APIError`, raised by a provider SDK. */
    | SdkAPIError
      /** Any other Python exception, by class name (`KeyError`, `TypeError`, ...). */
    | Foreign(name: string)

  datatype Exc = Exc(kind: Kind, message: string)

  /** The direct base class within the service's hierarchy, if any. */
  function Parent(k: Kind): Option<Kind>
  {
    match k
    case ClientError | ServerError => Some(LLMAPIError)
    case LLMRefusalError | InvalidModelError => Some(ClientError)
    case ConfigurationError => Some(ServerError)
    case _ => None
  }

  /** Distance to a root of the hierarchy; decreases along `Parent`. */
  function Depth(k: Kind): nat
  {
    match k
    case LLMAPIError => 0
    case ClientError | ServerError => 1
    case LLMRefusalError | InvalidModelError | ConfigurationError => 2
    case _ => 0
  }

  /** `isinstance(e, base)` for an exception of kind `k`: `base` is `k`
      itself or one of its ancestors. */
  predicate IsA(k: Kind, base: Kind)
    decreases Depth(k)
  {
    k == base || (Parent(k).Some? && IsA(Parent(k).value, base))
  }

  predicate IsClientError(k: Kind) { IsA(k, ClientError) }

  predicate IsServerError(k: Kind) { IsA(k, ServerError) }

  /** The subclass relation of the source, written out class by class. */
  lemma Hierarchy()
    ensures IsA(ClientError, LLMAPIError) && IsA(ServerError, LLMAPIError)
    ensures IsA(LLMRefusalError, ClientError) && IsA(InvalidModelError, ClientError)
    ensures IsA(ConfigurationError, ServerError)
    ensures IsA(LLMRefusalError, LLMAPIError) && IsA(ConfigurationError, LLMAPIError)
    ensures !IsA(ConfigurationError, ClientError) && !IsA(LLMRefusalError, ServerError)
  {
  }

  /** The classes that are client errors are exactly these three. */
  lemma ClientKinds(k: Kind)
    ensures IsClientError(k) <==> k in {ClientError, LLMRefusalError, InvalidModelError}
  {
  }

  /** The classes that are server errors are exactly these two. */
  lemma ServerKinds(k: Kind)
    ensures IsServerError(k) <==> k in {ServerError, ConfigurationError}
  {
  }

  /** No exception is both a client error and a server error. */
  lemma ClientServerDisjoint(k: Kind)
    ensures !(IsClientError(k) && IsServerError(k))
  {
    ClientKinds(k);
    ServerKinds(k);
  }

  /** Foreign exceptions belong to none of the service's classes. */
  lemma ForeignOutside(k: Kind, base: Kind)
    requires k.SdkAPIError? || k.Foreign?
    requires !base.SdkAPIError? && !base.Foreign?
    ensures !IsA(k, base)
  {
  }

  /** What an `except Exception as e: raise ServerError(f"Unexpected
      error: {str(e)}")` handler turns `e` into. */
  function Unexpected(e: Exc): (r: Exc)
    ensures r.kind == ServerError && IsServerError(r.kind)
    ensures r.message == "Unexpected error: " + e.message
  {
    Exc(ServerError, "Unexpected error: " + e.message)
  }

  /** The two handlers at the end of every adapter's `try`: an SDK
      `APIError` becomes `ServerError(str(e))`, anything else is
      `Unexpected`. */
  function Rewrap(e: Exc): (r: Exc)
    ensures r.kind == ServerError
    ensures e.kind == SdkAPIError ==> r.message == e.message
    ensures e.kind != SdkAPIError ==> r == Unexpected(e)
  {
    if e.kind == SdkAPIError then Exc(ServerError, e.message) else Unexpected(e)
  }
}
