/**
  The error values the arithmetic dispatcher can report. Only the kind of an error, the operand it
  names and the context it is wrapped with are kept; message formatting is not modelled.
 */
module Errors {

  datatype ErrorKind =
    | InaccessibleData  // the operand's memory is not natively addressable
    | NoOp              // sentinel: neither operand is numeric, there is nothing to compute
    | TypeMismatch
    | ShapeMismatch
    | MethodNYI         // a recognised but unimplemented operand combination
    | TypeNYI           // an unrecognised operand representation
    | EngineErr         // reported by a compute kernel

  /** The tensor an error message names. */
  datatype Subject = NoSubject | OperandA | OperandB | ReuseTarget

  /** The context string an error is wrapped with. */
  datatype Context =
    | Bare
    | ReuseNotDense        // "Cannot reuse a different type of Tensor ..."
    | CannotUseReuse       // "Cannot use reuse"
    | CannotUseReuseShape  // "Cannot use reuse: shape mismatch"

  datatype Error = Error(kind: ErrorKind, subject: Subject, context: Context)

  /** The `noopError{}` sentinel. */
  const NoOpError := Error(NoOp, NoSubject, Bare)

  /** What every kernel of the compute engine reports when it refuses its arguments. */
  const EngineFailure := Error(EngineErr, NoSubject, Bare)
}
