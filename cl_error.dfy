/** `get_error` of Code/src/opencl.cpp: the name of an OpenCL status code, as a
  * total function. The source's single `switch` lists three groups of codes
  * (run-time, compile-time and extension errors); each group is one function
  * here, and every other code is unknown.
  */
module ClError {

  /** The name returned for every code the `switch` does not list. */
  const UnknownError := "Unknown OpenCL error"

  /** Run-time and JIT compiler errors: 0 down to -19. */
  predicate RuntimeCode(code: int)
  {
    -19 <= code <= 0
  }

  /** Compile-time errors: -30 down to -68. */
  predicate CompileCode(code: int)
  {
    -68 <= code <= -30
  }

  /** Extension errors: -1000 down to -1005. */
  predicate ExtensionCode(code: int)
  {
    -1005 <= code <= -1000
  }

  /** The codes `get_error` has a name for. */
  predicate KnownCode(code: int)
  {
    RuntimeCode(code) || CompileCode(code) || ExtensionCode(code)
  }

  /** Names of the run-time and JIT compiler errors. */
  function RuntimeErrorName(code: int): (name: string)
    ensures name != UnknownError <==> RuntimeCode(code)
  {
    match code
    case 0 => "CL_SUCCESS"
    case -1 => "CL_DEVICE_NOT_FOUND"
    case -2 => "CL_DEVICE_NOT_AVAILABLE"
    case -3 => "CL_COMPILER_NOT_AVAILABLE"
    case -4 => "CL_MEM_OBJECT_ALLOCATION_FAILURE"
    case -5 => "CL_OUT_OF_RESOURCES"
    case -6 => "CL_OUT_OF_HOST_MEMORY"
    case -7 => "CL_PROFILING_INFO_NOT_AVAILABLE"
    case -8 => "CL_MEM_COPY_OVERLAP"
    case -9 => "CL_IMAGE_FORMAT_MISMATCH"
    case -10 => "CL_IMAGE_FORMAT_NOT_SUPPORTED"
    case -11 => "CL_BUILD_PROGRAM_FAILURE"
    case -12 => "CL_MAP_FAILURE"
    case -13 => "CL_MISALIGNED_SUB_BUFFER_OFFSET"
    case -14 => "CL_EXEC_STATUS_ERROR_FOR_EVENTS_IN_WAIT_LIST"
    case -15 => "CL_COMPILE_PROGRAM_FAILURE"
    case -16 => "CL_LINKER_NOT_AVAILABLE"
    case -17 => "CL_LINK_PROGRAM_FAILURE"
    case -18 => "CL_DEVICE_PARTITION_FAILED"
    case -19 => "CL_KERNEL_ARG_INFO_NOT_AVAILABLE"
    case _ => UnknownError
  }

  /** Names of the compile-time errors. */
  function CompileErrorName(code: int): (name: string)
    ensures name != UnknownError <==> CompileCode(code)
  {
    match code
    case -30 => "CL_INVALID_VALUE"
    case -31 => "CL_INVALID_DEVICE_TYPE"
    case -32 => "CL_INVALID_PLATFORM"
    case -33 => "CL_INVALID_DEVICE"
    case -34 => "CL_INVALID_CONTEXT"
    case -35 => "CL_INVALID_QUEUE_PROPERTIES"
    case -36 => "CL_INVALID_COMMAND_QUEUE"
    case -37 => "CL_INVALID_HOST_PTR"
    case -38 => "CL_INVALID_MEM_OBJECT"
    case -39 => "CL_INVALID_IMAGE_FORMAT_DESCRIPTOR"
    case -40 => "CL_INVALID_IMAGE_SIZE"
    case -41 => "CL_INVALID_SAMPLER"
    case -42 => "CL_INVALID_BINARY"
    case -43 => "CL_INVALID_BUILD_OPTIONS"
    case -44 => "CL_INVALID_PROGRAM"
    case -45 => "CL_INVALID_PROGRAM_EXECUTABLE"
    case -46 => "CL_INVALID_KERNEL_NAME"
    case -47 => "CL_INVALID_KERNEL_DEFINITION"
    case -48 => "CL_INVALID_KERNEL"
    case -49 => "CL_INVALID_ARG_INDEX"
    case -50 => "CL_INVALID_ARG_VALUE"
    case -51 => "CL_INVALID_ARG_SIZE"
    case -52 => "CL_INVALID_KERNEL_ARGS"
    case -53 => "CL_INVALID_WORK_DIMENSION"
    case -54 => "CL_INVALID_WORK_GROUP_SIZE"
    case -55 => "CL_INVALID_WORK_ITEM_SIZE"
    case -56 => "CL_INVALID_GLOBAL_OFFSET"
    case -57 => "CL_INVALID_EVENT_WAIT_LIST"
    case -58 => "CL_INVALID_EVENT"
    case -59 => "CL_INVALID_OPERATION"
    case -60 => "CL_INVALID_GL_OBJECT"
    case -61 => "CL_INVALID_BUFFER_SIZE"
    case -62 => "CL_INVALID_MIP_LEVEL"
    case -63 => "CL_INVALID_GLOBAL_WORK_SIZE"
    case -64 => "CL_INVALID_PROPERTY"
    case -65 => "CL_INVALID_IMAGE_DESCRIPTOR"
    case -66 => "CL_INVALID_COMPILER_OPTIONS"
    case -67 => "CL_INVALID_LINKER_OPTIONS"
    case -68 => "CL_INVALID_DEVICE_PARTITION_COUNT"
    case _ => UnknownError
  }

  /** Names of the extension errors. */
  function ExtensionErrorName(code: int): (name: string)
    ensures name != UnknownError <==> ExtensionCode(code)
  {
    match code
    case -1000 => "CL_INVALID_GL_SHAREGROUP_REFERENCE_KHR"
    case -1001 => "CL_PLATFORM_NOT_FOUND_KHR"
    case -1002 => "CL_INVALID_D3D10_DEVICE_KHR"
    case -1003 => "CL_INVALID_D3D10_RESOURCE_KHR"
    case -1004 => "CL_D3D10_RESOURCE_ALREADY_ACQUIRED_KHR"
    case -1005 => "CL_D3D10_RESOURCE_NOT_ACQUIRED_KHR"
    case _ => UnknownError
  }

  /** `get_error(code)`: a listed code gets its own name, and exactly the
    * codes outside the three groups get `UnknownError`. */
  function ErrorName(code: int): (name: string)
    ensures name != UnknownError <==> KnownCode(code)
  {
    if RuntimeCode(code) then RuntimeErrorName(code)
    else if CompileCode(code) then CompileErrorName(code)
    else if ExtensionCode(code) then ExtensionErrorName(code)
    else UnknownError
  }

  /** Two of the listed names, as examples of the lookup. */
  lemma ErrorNameExamples()
    ensures ErrorName(0) == "CL_SUCCESS"
    ensures ErrorName(-1001) == "CL_PLATFORM_NOT_FOUND_KHR"
    ensures ErrorName(-20) == UnknownError && ErrorName(1) == UnknownError
  {
  }
}
