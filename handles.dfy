/** The foreign objects the core keeps references to. OpenGL and OpenCL calls
  * are outside the model: each object they create appears here only as the
  * number that identifies it, passed in by the caller.
  */
module Handles {

  /** A value that may be absent: `None` stands for NULL. */
  datatype Option<T> = None | Some(value: T)

  /** An OpenCL memory object (`cl_mem`): a buffer of its own in device memory,
    * or a view of an OpenGL vertex buffer object (`clCreateFromGLBuffer`). */
  datatype MemObject =
    | DeviceBuffer(id: nat)
    | SharedWithGl(id: nat, vbo: nat)
}
