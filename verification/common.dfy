/** Shared vocabulary of the queue core: optional values, typed results and
    the error replies the HTTP routes send back. */
module Common {

  /** A value that may be absent: a missing JSON field, a missing cookie,
      `null` in the client's state. */
  datatype Option<+T> = None | Some(value: T)

  /** A route's reply: the success payload or one of the route's error tags. */
  datatype Result<+R, +E> = Success(value: R) | Failure(error: E)

  /** JavaScript truthiness of an optional string field: a missing field and
      the empty string are both falsy. */
  predicate Present(s: Option<string>)
  {
    s.Some? && s.value != ""
  }

  /** The error replies of the routes and the admin gate, one tag per
      distinct `{ error: ... }` body. */
  datatype HttpError =
    | MissingNameOrShopId   // join: name or shopId falsy
    | JoinInternalError     // join: a failing step after validation
    | QueueIsEmpty          // serve-next: lpop returned a falsy name
    | MissingName           // remove: name falsy
    | NoAuthCookie          // requireAdmin: capability falsy
    | ShopMismatch          // requireAdmin: capability names another shop
    | MissingShopIdOrPin    // login: shopId or pin falsy
    | InvalidPin            // login: unknown shop or wrong pin

  /** HTTP status code sent with each error. */
  function Status(e: HttpError): (code: int)
    ensures code in {400, 401, 500}
    ensures code == 401 <==> e in {NoAuthCookie, ShopMismatch, InvalidPin}
  {
    match e
    case MissingNameOrShopId => 400
    case JoinInternalError => 500
    case QueueIsEmpty => 400
    case MissingName => 400
    case NoAuthCookie => 401
    case ShopMismatch => 401
    case MissingShopIdOrPin => 400
    case InvalidPin => 401
  }

  /** The `error` string of the JSON reply. */
  function Message(e: HttpError): string
  {
    match e
    case MissingNameOrShopId => "Missing name or shopId"
    case JoinInternalError => "Internal server error"
    case QueueIsEmpty => "Queue is empty"
    case MissingName => "Missing name"
    case NoAuthCookie => "No auth cookie"
    case ShopMismatch => "Shop mismatch"
    case MissingShopIdOrPin => "Missing shopId or pin"
    case InvalidPin => "Invalid PIN"
  }

  /** Each error tag has its own message, so a client can tell every error
      reply apart by its `error` string alone. */
  lemma MessagesDistinct(a: HttpError, b: HttpError)
    ensures Message(a) == Message(b) <==> a == b
    ensures Message(a) != ""
  {
  }
}
