/** Values shared by every component of the bridge. */
module Common {

  datatype Option<T> = None | Some(value: T)

  datatype Result<T, E> = Ok(value: T) | Err(error: E)

  newtype byte = x: int | 0 <= x < 256

  /** A chunk of the byte stream carried between a socket and a session. */
  type Chunk = seq<byte>

  /** An error object as an `error` listener sees it; `code` is its `code` property, if any. */
  datatype Error = Error(code: Option<string>, message: string)

  /** The property names every plain JavaScript object `{}` inherits from Object.prototype;
      reading one of them from an empty dictionary yields a truthy non-array value. */
  const InheritedNames: set<string> := {
    "constructor", "hasOwnProperty", "isPrototypeOf", "propertyIsEnumerable",
    "toLocaleString", "toString", "valueOf", "__proto__",
    "__defineGetter__", "__defineSetter__", "__lookupGetter__", "__lookupSetter__"
  }
}
