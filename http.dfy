/**
 * The parts of ASP.NET Core that the controllers touch: the status codes an
 * envelope records, the action results the helper methods (`Ok`, `BadRequest`,
 * `NotFound`, `NoContent`, `CreatedAtRoute`, `StatusCode`) build, the
 * model-state errors and the exceptions that can occur inside an action.
 */
module Http {

  /** `System.Net.HttpStatusCode`; `Unset` is the enum's default value 0. */
  datatype HttpStatusCode = Unset | OK | Created | NoContent | BadRequest | NotFound | InternalServerError
  {
    function Code(): int
    {
      match this
      case Unset => 0
      case OK => 200
      case Created => 201
      case NoContent => 204
      case BadRequest => 400
      case NotFound => 404
      case InternalServerError => 500
    }
  }

  /** One `ModelState.AddModelError(key, message)` entry. */
  datatype ModelError = ModelError(key: string, message: string)

  /** The exceptions that the modelled code can raise. */
  datatype Exception = NullReferenceException | DbUpdateConcurrencyException | DbUpdateException

  /** Stands for `ex.ToString()` by the exception's type name; only the fact that there is one message is relied on. */
  function Describe(ex: Exception): string
  {
    match ex
    case NullReferenceException => "NullReferenceException"
    case DbUpdateConcurrencyException => "DbUpdateConcurrencyException"
    case DbUpdateException => "DbUpdateException"
  }

  /**
   * What an action hands back to the framework. `ObjectResult` is a value
   * returned as it is (`return _response;`), which the framework sends with
   * 200; `UnhandledException` is an exception that leaves the action, which
   * the host answers with 500.
   */
  datatype ActionResult<T> =
    | OkObjectResult(value: T)
    | CreatedAtRouteResult(routeId: int, value: T)
    | NoContentResult
    | BadRequestResult
    | BadRequestModelState(errors: seq<ModelError>)
    | BadRequestObjectResult(value: T)
    | NotFoundResult
    | NotFoundObjectResult(value: T)
    | StatusCodeResult(code: HttpStatusCode)
    | ObjectResult(value: T)
    | UnhandledException(ex: Exception)
  {
    /** The status line the client receives. */
    function Status(): HttpStatusCode
    {
      match this
      case OkObjectResult(_) => OK
      case CreatedAtRouteResult(_, _) => Created
      case NoContentResult => NoContent
      case BadRequestResult => BadRequest
      case BadRequestModelState(_) => BadRequest
      case BadRequestObjectResult(_) => BadRequest
      case NotFoundResult => NotFound
      case NotFoundObjectResult(_) => NotFound
      case StatusCodeResult(c) => c
      case ObjectResult(_) => OK
      case UnhandledException(_) => InternalServerError
    }
  }
}
