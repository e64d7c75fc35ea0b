/** The ways a request to the proxy can fail, and the HTTP status each one reaches the client with. */
module Errors {

  datatype Failure =
    | InvalidSignature(detail: string)      // register: the signature text was rejected (main.py:98-99)
    | ApiKeyRequired(provider: string)      // configure: no usable key (main.py:66-67)
    | LmConstructionFailed(detail: string)  // configure: the LM client refused the settings (main.py:82-83)
    | SignatureNotFound                     // predict / optimize: unknown signature name (main.py:103-104, 145-146)
    | CompiledModuleNotFound                // predict: unknown compiled module id (main.py:111-112)
    | UnknownModuleType(moduleType: string) // predict: neither "Predict" nor "ChainOfThought" (main.py:120-121)
    | ExecutionFailed(detail: string)       // predict: running the module raised (main.py:124, 138-141)
    | NoOutputField                         // optimize: `output_keys[-1]` on an empty list (main.py:162-163)
    | UnsupportedOptimizer                  // optimize: optimizer other than "BootstrapFewShot" (main.py:171-172)
    | CompileFailed(detail: string)         // optimize: the optimizer raised while compiling (main.py:177, 185-188)

  /**
   * The status code the client sees. The 404 and 400 exceptions raised inside the `try` blocks of
   * predict and optimize are caught by their `except Exception` and re-raised with status 500;
   * the IndexError of the default metric is not caught at all, which the framework also turns into 500.
   */
  function StatusCode(f: Failure): (code: nat)
    ensures code == 400 || code == 404 || code == 500
    ensures code == 404 <==> f == SignatureNotFound
    ensures code == 400 <==> f.InvalidSignature? || f.ApiKeyRequired?
  {
    match f
    case SignatureNotFound => 404
    case InvalidSignature(_) => 400
    case ApiKeyRequired(_) => 400
    case _ => 500
  }

  /** The status code each exception was raised with, had it reached the client unchanged. */
  function IntendedStatusCode(f: Failure): (code: nat)
    ensures code == 400 || code == 404 || code == 500
    ensures code == 404 <==> f == SignatureNotFound || f == CompiledModuleNotFound
    ensures code == 400 <==> f.InvalidSignature? || f.ApiKeyRequired? || f.UnknownModuleType? || f == UnsupportedOptimizer
  {
    match f
    case SignatureNotFound => 404
    case CompiledModuleNotFound => 404
    case InvalidSignature(_) => 400
    case ApiKeyRequired(_) => 400
    case UnknownModuleType(_) => 400
    case UnsupportedOptimizer => 400
    case _ => 500
  }

  /** The three client errors raised inside a `try` reach the client as server errors. */
  lemma ClientErrorsSurfaceAsServerErrors(moduleType: string)
    ensures StatusCode(CompiledModuleNotFound) == 500 != IntendedStatusCode(CompiledModuleNotFound)
    ensures StatusCode(UnknownModuleType(moduleType)) == 500 != IntendedStatusCode(UnknownModuleType(moduleType))
    ensures StatusCode(UnsupportedOptimizer) == 500 != IntendedStatusCode(UnsupportedOptimizer)
  {
  }

  /** Every other failure keeps the status it was raised with. */
  lemma OtherStatusesAgree(f: Failure)
    requires !f.CompiledModuleNotFound? && !f.UnknownModuleType? && !f.UnsupportedOptimizer?
    ensures StatusCode(f) == IntendedStatusCode(f)
  {
  }
}
