/** Values the host runtime (Electron on Node.js) hands to the editor's code:
    optional values, window handles, screen positions, the platform name,
    and JavaScript's truthiness of a `string | null`. */
module Host {

  /** `null`/`undefined` versus a present value. */
  datatype Option<+T> = None | Some(value: T)

  /** A BrowserWindow handle; two handles are the same window iff they are equal. */
  type WindowId = nat

  /** A screen position as returned by `BrowserWindow.getPosition()`. */
  datatype Point = Point(x: int, y: int)

  /** `process.platform`, compared as a string; only "darwin" is
      distinguished by the code. */
  type Platform = string

  const Darwin: Platform := "darwin"

  /** JavaScript truthiness of a `string | null`: both `null` and `""` are falsy. */
  predicate Truthy(s: Option<string>)
  {
    s.Some? && s.value != ""
  }
}
