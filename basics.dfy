/** Values shared by every part of the model: optional values (JavaScript's
    `undefined`), socket ids, and JavaScript truthiness of a header or payload
    string. */
module Basics {

  /** `None` stands for JavaScript's `undefined` (and `null`). */
  datatype Option<+T> = None | Some(value: T)

  /** A socket.io connection, identified by its `socket.id`. */
  type SocketId = string

  /** `!!x` for an optional string: `undefined` and `""` are falsy. */
  predicate Truthy(x: Option<string>)
  {
    x.Some? && x.value != ""
  }
}
