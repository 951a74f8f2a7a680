/** Failure-carrying results. The source reports every failure of this core by
    throwing (ORT_ENFORCE / ORT_THROW / SafeInt) or by returning a Status; the
    model returns one of these values instead, naming the check that failed. */
module Outcomes {

  datatype Option<T> = None | Some(value: T)

  /** One constructor per failing check of the core. */
  datatype Error =
    | InvalidType                    // ShaderVariable constructors
    | TooManyStorageBuffers          // AddVariable: limit reached, or a Local scope
    | BodyAlreadySet                 // MainFunctionBody called twice
    | ZeroWorkgroupSize              // MainFunctionBody: a zero dimension
    | WorkgroupSizeExceedsLimit      // MainFunctionBody: a dimension above its maximum
    | TooManyInvocations             // MainFunctionBody: x*y*z above the maximum
    | F16NotSupported                // GetFinalSourceCode without ShaderF16
    | InvalidDispatchGroupSize       // ShaderHelper constructor: a zero dimension
    | DispatchGroupSizeExceedsLimit  // NormalizeDispatchGroupSize: cube root still too large
    | IntegerOverflow                // SafeInt<uint32_t> narrowing or addition

  datatype Result<T> = Ok(value: T) | Err(error: Error)

  /** The outcome of an operation that yields no value (onnxruntime's Status). */
  datatype Status = Success | Failure(error: Error)
}
