/**
 * Values of the host (the Node.js runtime and the blogging framework) that the
 * template renderer passes around: error objects, the responses written with
 * `ctx.end`, the log lines written with `bloggify.log`, and the identity of a
 * render function supplied by a plugin.
 */
module Host {
  import opened Wrappers

  /** Identity of a host render function (a JavaScript function value). */
  type FnId = nat

  /** Plain template data: the caller's fields and a template's static `data`. */
  type Fields = map<string, string>

  /** A JavaScript `Error` with the optional `statusCode` property the renderer sets. */
  datatype Error = Error(message: string, statusCode: Option<int>)

  /** One call of `ctx.end(body, statusCode)`. */
  datatype Response = Response(body: string, status: int)

  /** One call of `bloggify.log(message, level)`. */
  datatype LogEntry =
    | LogError(err: Error)        // log(err, "error")
    | LogWarn(message: string)    // log(message, "warn")
    | LogInfo(message: string)    // log(message)
}
