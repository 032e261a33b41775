/** The exceptions the application raises or lets through. */
module Errors {
  import opened Text

  /** `Http` is FastAPI's HTTPException; `Exception` is any other Python exception,
      named by its class and carrying its `str()`. */
  datatype Error =
    | Http(status: int, detail: string)
    | Exception(kind: string, message: string)

  /** `str(e)` of an exception; Starlette renders an HTTPException as "<status>: <detail>". */
  function Message(e: Error): string
  {
    match e
    case Http(status, detail) => (if status < 0 then "-" + Decimal(-status) else Decimal(status)) + ": " + detail
    case Exception(_, message) => message
  }

  function KeyError(key: string): Error
  {
    Exception("KeyError", "'" + key + "'")
  }

  function AttributeError(typeName: string, attribute: string): Error
  {
    Exception("AttributeError", "'" + typeName + "' object has no attribute '" + attribute + "'")
  }

  function TypeError(message: string): Error
  {
    Exception("TypeError", message)
  }
}
