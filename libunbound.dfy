/**
 * The interface of libunbound as the bindings see it, as data: the result
 * structure a resolution produces, the calls the bindings make, and the
 * library's answer to one call. libunbound itself is not modelled; what it
 * answers is always a parameter.
 */
module Libunbound {

  import opened Wrappers
  import opened JsValues
  import opened ErrorFormat

  /**
   * `struct ub_result`. `data` is the NULL-terminated array of rdata
   * pointers (None when the array pointer is NULL, and None entries for NULL
   * elements); each buffer is as long as the matching entry of the `len`
   * array, and `hasLen` says whether that array pointer is non-NULL.
   * `answerPacket` is the packet pointer; `answer_len` is its length, 0
   * when the pointer is NULL.
   */
  datatype UbResult = UbResult(
    qname: Option<string>,
    qtype: Int32,
    qclass: Int32,
    data: Option<seq<Option<Bytes>>>,
    hasLen: bool,
    canonname: Option<string>,
    rcode: Int32,
    answerPacket: Option<Bytes>,
    havedata: bool,
    nxdomain: bool,
    secure: bool,
    bogus: bool,
    whyBogus: Option<string>,
    wasRatelimited: bool,
    ttl: Int32)

  /**
   * The string a `char *` carries: the characters before the first NUL, or
   * all of them when there is none.
   */
  function CString(s: string): (c: string)
    ensures c <= s && '\0' !in c
    ensures |c| < |s| ==> s[|c|] == '\0'
    ensures '\0' !in s ==> c == s
  {
    if s == [] || s[0] == '\0' then [] else [s[0]] + CString(s[1..])
  }

  /** A prefix without a NUL that ends at a NUL, or at the end, is the C string. */
  lemma CStringOfPrefix(s: string, p: string)
    requires p <= s && '\0' !in p
    requires |p| < |s| ==> s[|p|] == '\0'
    ensures CString(s) == p
  {
  }

  /** `answer_len`. */
  function AnswerLen(r: UbResult): nat {
    if r.answerPacket.Some? then |r.answerPacket.value| else 0
  }

  /** UNBOUND_VERSION_MAJOR and UNBOUND_VERSION_MINOR of the library built against. */
  datatype Version = Version(major: nat, minor: nat)

  /** `was_ratelimited` exists in `struct ub_result` from libunbound 1.8 on. */
  predicate HasRateLimitField(v: Version) {
    v.major > 1 || (v.major == 1 && v.minor >= 8)
  }

  /** A call into libunbound, with the arguments the binding passes. */
  datatype LibCall =
    | CtxCreate
    | CtxDelete
    | DebugOut
    | DebugLevel(level: int)
    | GetVersion
    | SetOption(opt: string, val: string)
    | GetOption(opt: string)
    | Config(fname: string)
    | SetFwd(addr: string)
    | SetStub(zone: string, addr: string, isprime: bool)
    | ResolvConf(fname: string)
    | Hosts(fname: string)
    | AddTa(ta: string)
    | AddTaFile(fname: string)
    | AddTaAutr(fname: string)
    | TrustedKeys(fname: string)
    | ZoneAdd(name: string, zoneType: string)
    | ZoneRemove(name: string)
    | DataAdd(data: string)
    | DataRemove(data: string)
    | Resolve(name: string, rrtype: int, rrclass: int)

  /** The string arguments of a call, in the order the binding reads them. */
  function StringArgs(call: LibCall): (r: seq<string>)
    ensures call.SetOption? ==> r == [call.opt, call.val]
    ensures call.Resolve? ==> r == [call.name]
  {
    match call
    case SetOption(opt, val) => [opt, val]
    case GetOption(opt) => [opt]
    case Config(fname) => [fname]
    case SetFwd(addr) => [addr]
    case SetStub(zone, addr, _) => [zone, addr]
    case ResolvConf(fname) => [fname]
    case Hosts(fname) => [fname]
    case AddTa(ta) => [ta]
    case AddTaFile(fname) => [fname]
    case AddTaAutr(fname) => [fname]
    case TrustedKeys(fname) => [fname]
    case ZoneAdd(name, zoneType) => [name, zoneType]
    case ZoneRemove(name) => [name]
    case DataAdd(data) => [data]
    case DataRemove(data) => [data]
    case Resolve(name, _, _) => [name]
    case _ => []
  }

  /**
   * libunbound's answer to one call: the error code it returns, what
   * `ub_strerror` gives for that code, and the string it yields (the value
   * of `ub_ctx_get_option`, or `ub_version`), None for NULL.
   */
  datatype LibAnswer = LibAnswer(code: Int32, message: Option<string>, value: Option<string>)

  /**
   * What a binding method does: the library call it makes (None when it
   * makes none) and what it returns or throws.
   */
  datatype Outcome = Outcome(call: Option<LibCall>, result: Result<JsValue, JsError>)

  /** The library calls a sequence of steps made, in order, and what it returned or threw. */
  datatype Trace = Trace(calls: seq<LibCall>, result: Result<JsValue, JsError>)
}
