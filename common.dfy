/**
 * Shared vocabulary of the place catalog: the error taxonomy every action
 * reports, the region/category/status enumerations, JavaScript numbers as
 * the actions see them, and the tagged result shape the actions return.
 */
module Common {

  datatype Option<+T> = None | Some(value: T) {
    function GetOr(default: T): T {
      match this
      case Some(v) => v
      case None => default
    }
  }

  /** The error table: each entry has an HTTP status code and a `type` string. */
  datatype ErrorType =
    | BadRequest
    | Unauthorized
    | Forbidden
    | NotFound
    | MethodNotAllowed
    | Conflict
    | UnprocessableEntity
    | TooManyRequests
    | InternalServerError
    | BadGateway
    | ServiceUnavailable
  {
    /** The status code of the entry. */
    function Code(): (c: int)
      ensures 400 <= c < 600
      ensures c < 500 <==> !(this in {InternalServerError, BadGateway, ServiceUnavailable})
    {
      match this
      case BadRequest => 400
      case Unauthorized => 401
      case Forbidden => 403
      case NotFound => 404
      case MethodNotAllowed => 405
      case Conflict => 409
      case UnprocessableEntity => 422
      case TooManyRequests => 429
      case InternalServerError => 500
      case BadGateway => 502
      case ServiceUnavailable => 503
    }

    /** The `type` string carried by a failed result. */
    function TypeName(): string {
      match this
      case BadRequest => "BAD_REQUEST"
      case Unauthorized => "UNAUTHORIZED"
      case Forbidden => "FORBIDDEN"
      case NotFound => "NOT_FOUND"
      case MethodNotAllowed => "METHOD_NOT_ALLOWED"
      case Conflict => "CONFLICT"
      case UnprocessableEntity => "UNPROCESSABLE_ENTITY"
      case TooManyRequests => "TOO_MANY_REQUESTS"
      case InternalServerError => "INTERNAL_SERVER_ERROR"
      case BadGateway => "BAD_GATEWAY"
      case ServiceUnavailable => "SERVICE_UNAVAILABLE"
    }
  }

  /** Distinct table entries have distinct codes and distinct `type` strings. */
  lemma ErrorTableInjective(a: ErrorType, b: ErrorType)
    ensures a.Code() == b.Code() ==> a == b
    ensures a.TypeName() == b.TypeName() ==> a == b
  {
  }

  /** Region filter values; `all` and `nearby` are the two non-geographic choices. */
  datatype Region = AllRegions | Nearby | North | South | East | West

  datatype Category = AllCategories | Food | Cafe | Sight {
    function Name(): string {
      match this
      case AllCategories => "all"
      case Food => "food"
      case Cafe => "cafe"
      case Sight => "sight"
    }
  }

  datatype Status = Draft | Published | Hidden

  /** A JavaScript number, without the floating-point rounding. */
  datatype JsNumber = NaN | Infinite(positive: bool) | Finite(value: real) {
    /** `!x` is false: neither NaN nor zero (both infinities are truthy). */
    predicate Truthy() {
      Infinite? || (Finite? && value != 0.0)
    }
    /** `Number.isFinite(x)`. */
    predicate IsFinite() {
      Finite?
    }
  }

  /** JavaScript truthiness of numbers: only NaN and zero are falsy, and both infinities pass `!x`. */
  lemma TruthyNumbers(x: JsNumber)
    ensures !x.Truthy() <==> x == NaN || x == Finite(0.0)
  {
  }

  /** The signed-in identity the auth gateway hands out. */
  datatype AuthUser = AuthUser(id: string, email: Option<string>)

  /** A stored place row, reduced to the columns the actions look at. */
  datatype PlaceRecord = PlaceRecord(
    id: int,
    name: string,
    category: string,
    region: string,
    addressLine1: Option<string>,
    imageUrl: Option<string>,
    lat: Option<real>,
    lng: Option<real>)

  /** What a failed result may carry in `details` besides its type. */
  datatype Detail =
    | NoDetail
    | Message(text: string)
    | FilterEcho(region: string, category: string)
    | CategoryEcho(category: string)

  /**
   * The tagged outcome every action returns: `{ ok: true, data, redirect? }`
   * or `{ ok: false, type, message, details? }`. The user-facing message text
   * is not part of the model.
   */
  datatype ActionResult<+T> =
    | Success(data: T, redirect: Option<string>)
    | Failure(kind: ErrorType, details: Detail)

  /** An action that may also let an exception escape instead of returning. */
  datatype Outcome<+T> = Returned(result: ActionResult<T>) | Thrown(message: string)
}
