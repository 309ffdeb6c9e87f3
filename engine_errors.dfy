/**
 * The engine's error record, as the core builds it: a cause, the scope that
 * raised it, the execution it belongs to and an optional message.
 */
module EngineErrors {
  import opened Wrappers

  datatype EngineErrorCause = Internal | User

  /**
   * `Engine` for errors raised by the engine itself; a service raising an
   * error reports its own scope, identified here by the service id and name.
   */
  datatype EngineErrorScope = Engine | ServiceScope(id: string, name: string)

  datatype EngineError = EngineError(cause: EngineErrorCause, scope: EngineErrorScope, executionId: string, message: Option<string>)
}
