// The web service's error type (crates/web_service/src/error.rs, which is
// not part of this model): only the variants the controllers construct.
module AppErrors {
  datatype AppError =
    | NotFound(what: string)
    | BadRequest(message: string)
    | InternalError(message: string)
    | ToolExecutionError(message: string)
    | StorageError
    | SerdeError
}
