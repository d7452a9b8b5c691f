/** Optional values and results, for the error returns of the Go library calls
    the server makes (os.Hostname, filepath.Abs, Server.Shutdown). */
module Wrappers {

  datatype Option<+T> = None | Some(value: T)

  datatype Result<+T, +E> = Ok(value: T) | Err(error: E)
}
