/** Small shared vocabulary: optional values, error-carrying results, the
    abstract JSON codec and key lookup in browser storage. */
module Base {

  /** A value that may be `null`/`undefined` in the original program. */
  datatype Option<+T> = None | Some(value: T) {
    function GetOr(default: T): T {
      if Some? then value else default
    }
  }

  /** The outcome of an operation that may throw an `Error(message)`. */
  datatype Result<+T> = Ok(value: T) | Err(message: string)

  /** `JSON.stringify` and `JSON.parse` for one record type, kept abstract:
      `decode` answers `None` where `JSON.parse` throws. */
  datatype Codec<!T> = Codec(encode: T -> string, decode: string -> Option<T>)

  /** A codec whose parse undoes its stringify, and whose output is never
      the empty string (`JSON.stringify` of an array or object never is). */
  ghost predicate Faithful<T(!new)>(c: Codec<T>) {
    forall x :: c.decode(c.encode(x)) == Some(x) && c.encode(x) != ""
  }

  /** `localStorage.getItem(key)`: `null` when the key is absent. */
  function Lookup(storage: map<string, string>, key: string): Option<string> {
    if key in storage then Some(storage[key]) else None
  }

  /** JavaScript truthiness of an optional string: present and non-empty. */
  predicate Truthy(s: Option<string>) {
    s.Some? && s.value != ""
  }

  /** The JavaScript expression `a || b` on two optional strings. */
  function Or(a: Option<string>, b: Option<string>): (r: Option<string>)
    ensures Truthy(r) <==> Truthy(a) || Truthy(b)
    ensures Truthy(a) ==> r == a
  {
    if Truthy(a) then a else b
  }

  /** The JavaScript expression `a || b` where `b` is a string. */
  function OrElse(a: Option<string>, b: string): string {
    if Truthy(a) then a.value else b
  }
}
