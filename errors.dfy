/** The application's exception hierarchy (backend/app/core/exceptions.py)
    and the other Python exceptions the modelled code raises or catches,
    each with the text `str(e)` gives. */
module Errors {
  import opened Wrappers
  import PyText

  /** `CustomException` and its eight subclasses. Each subclass fixes the
      status code and builds the detail from its constructor argument. */
  datatype AppError =
    | CustomException(detail: string, status: int, data: map<string, string>)
    | ModelNotFoundError(modelId: string)
    | EvaluationError(message: string)
    | InvalidPromptError(message: string)
    | APIKeyError(provider: string)
    | RateLimitError(provider: string)
    | DatabaseError(message: string)
    | AuthenticationError
    | PermissionError(resource: string)
  {
    /** `exc.detail`; also what `str(exc)` returns. */
    function Detail(): string {
      match this
      case CustomException(d, _, _) => d
      case ModelNotFoundError(id) => "Model with ID " + id + " not found"
      case EvaluationError(m) => "Evaluation failed: " + m
      case InvalidPromptError(m) => "Invalid prompt: " + m
      case APIKeyError(p) => "Missing or invalid API key for " + p
      case RateLimitError(p) => "Rate limit exceeded for " + p
      case DatabaseError(m) => "Database error: " + m
      case AuthenticationError => "Could not validate credentials"
      case PermissionError(r) => "Not enough permissions to access " + r
    }

    /** `exc.status_code`. */
    function StatusCode(): int {
      match this
      case CustomException(_, s, _) => s
      case ModelNotFoundError(_) => 404
      case EvaluationError(_) => 500
      case InvalidPromptError(_) => 400
      case APIKeyError(_) => 401
      case RateLimitError(_) => 429
      case DatabaseError(_) => 500
      case AuthenticationError => 401
      case PermissionError(_) => 403
    }

    /** `exc.data`: the subclasses never pass data, so it is `{}`. */
    function Data(): map<string, string> {
      if CustomException? then data else map[]
    }
  }

  /** `CustomException(detail, status_code=400, data=None)`: an omitted status
      is 400 and a missing (or empty) data map becomes `{}`. */
  function NewCustomException(detail: string, statusCode: Option<int>, data: Option<map<string, string>>): (e: AppError)
    ensures e.Detail() == detail
    ensures statusCode.None? ==> e.StatusCode() == 400
    ensures statusCode.Some? ==> e.StatusCode() == statusCode.value
    ensures data.None? ==> e.Data() == map[]
    ensures data.Some? ==> e.Data() == data.value
  {
    CustomException(detail, statusCode.GetOr(400), data.GetOr(map[]))
  }

  /** An exception as the modelled code sees it. */
  datatype Exc =
    | App(err: AppError)                        // a CustomException subclass
    | HttpException(code: int, detail: string)  // fastapi.HTTPException
    | ValueError(msg: string)
    | TypeError(msg: string)
    | ZeroDivisionError
    | IndexError
    | IntegrityError(constraint: string)        // the store rejected a commit
    | Exception(msg: string)                    // a plain Exception(msg), or any other error with that text
  {
    /** `str(e)`. For HTTPException this is Starlette's "<status>: <detail>";
        for an integrity error only the violated constraint is kept. */
    function Str(): string {
      match this
      case App(e) => e.Detail()
      case HttpException(c, d) => PyText.IntToString(c) + ": " + d
      case ValueError(m) => m
      case TypeError(m) => m
      case ZeroDivisionError => "division by zero"
      case IndexError => "list index out of range"
      case IntegrityError(c) => c
      case Exception(m) => m
    }

    /** `hasattr(e, "status_code")`. */
    predicate HasStatusCode() {
      App? || HttpException?
    }

    function StatusCodeAttr(): int
      requires HasStatusCode()
    {
      if App? then err.StatusCode() else code
    }
  }

  /** The eight subclasses carry fixed status codes, and the base class
      defaults to 400. */
  lemma FixedStatusCodes(id: string, m: string, p: string, r: string, d: string)
    ensures ModelNotFoundError(id).StatusCode() == 404
    ensures EvaluationError(m).StatusCode() == 500
    ensures InvalidPromptError(m).StatusCode() == 400
    ensures APIKeyError(p).StatusCode() == 401
    ensures RateLimitError(p).StatusCode() == 429
    ensures DatabaseError(m).StatusCode() == 500
    ensures AuthenticationError.StatusCode() == 401
    ensures PermissionError(r).StatusCode() == 403
    ensures NewCustomException(d, None, None).StatusCode() == 400
  {
  }

  /** `str(exc) == exc.detail`, and the details carry their fixed prefixes. */
  lemma DetailPrefixes(e: AppError)
    ensures App(e).Str() == e.Detail()
    ensures e.EvaluationError? ==> e.Detail() == "Evaluation failed: " + e.message
    ensures e.InvalidPromptError? ==> e.Detail() == "Invalid prompt: " + e.message
    ensures e.DatabaseError? ==> e.Detail() == "Database error: " + e.message
    ensures e.ModelNotFoundError? ==> e.Detail() == "Model with ID " + e.modelId + " not found"
    ensures e.APIKeyError? ==> PyText.HasSubstring(e.Detail(), e.provider)
    ensures e.RateLimitError? ==> PyText.HasSubstring(e.Detail(), e.provider)
    ensures e.AuthenticationError? ==> e.Detail() == "Could not validate credentials"
  {
    if e.APIKeyError? {
      SuffixOccurs("Missing or invalid API key for ", e.provider);
    }
    if e.RateLimitError? {
      SuffixOccurs("Rate limit exceeded for ", e.provider);
    }
  }

  lemma SuffixOccurs(a: string, b: string)
    ensures PyText.HasSubstring(a + b, b)
  {
    PyText.HasSubstringIff(a + b, b);
    assert PyText.OccursAt(a + b, b, |a|);
  }

  /** Re-raising an EvaluationError as EvaluationError(str(e)) doubles the prefix. */
  lemma EvaluationErrorRewrapped(m: string)
    ensures App(EvaluationError(App(EvaluationError(m)).Str())).Str()
         == "Evaluation failed: Evaluation failed: " + m
  {
  }
}
