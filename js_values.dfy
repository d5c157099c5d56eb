/**
 * The JavaScript values that cross the binding boundary, the errors the
 * binding throws, and the two ways an asynchronous resolution settles.
 */
module JsValues {

  import opened Wrappers

  type Bytes = seq<bv8>

  /** The largest unsigned 32-bit value plus one. */
  const TwoTo32: int := 0x1_0000_0000

  /**
   * A JavaScript value as far as the binding branches on it. `Receiver` is the
   * object a method was called on (what a setter returns); `Handle` is the
   * external wrapping a native resolver context.
   */
  datatype JsValue =
    | Undefined
    | Null
    | Bool(b: bool)
    | Num(n: int)
    | Str(s: string)
    | Buffer(bytes: Bytes)
    | Array(items: seq<JsValue>)
    | Function
    | Receiver
    | Handle

  datatype ErrorKind = Error | TypeError

  /** A thrown JavaScript error: its constructor, its `code` property if set, and its message. */
  datatype JsError = JsError(kind: ErrorKind, code: Option<string>, message: string)

  /** How a resolution reports back: a resolved array of items, or a rejection. */
  datatype Settlement = Resolved(items: seq<JsValue>) | Rejected(error: JsError)

  /** JavaScript's `v == null`: true of null and undefined alone. */
  predicate IsNullish(v: JsValue) {
    v.Undefined? || v.Null?
  }

  /** JavaScript truthiness, as `Nan::To<bool>` applies it. */
  function ToBoolean(v: JsValue): (r: bool)
    ensures IsNullish(v) ==> !r
    ensures v.Bool? ==> r == v.b
  {
    match v
    case Undefined => false
    case Null => false
    case Bool(b) => b
    case Num(n) => n != 0
    case Str(s) => s != ""
    case _ => true
  }

  /**
   * ECMAScript ToUint32 on an integral number: the value modulo 2^32,
   * never negative (Dafny's `%` is Euclidean, as ToUint32 requires).
   */
  function ToUint32(n: int): (r: int)
    ensures 0 <= r < TwoTo32
    ensures 0 <= n < TwoTo32 ==> r == n
  {
    n % TwoTo32
  }

  /** A C `(int)` cast of an unsigned 32-bit value: values of 2^31 and above wrap to negative. */
  function UnsignedToCInt(u: int): (r: int)
    requires 0 <= u < TwoTo32
    ensures -0x8000_0000 <= r < 0x8000_0000
    ensures ToUint32(r) == u
  {
    if u < 0x8000_0000 then u else u - TwoTo32
  }
}
