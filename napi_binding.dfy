/**
 * src/node_unbound.c: the N-API binding. Every string argument is copied
 * into a fixed buffer and rejected when it fills it; library errors are
 * thrown with code ERR_UNBOUND; a resolution runs on a worker whose
 * completion converts the result.
 */
module NapiBinding {

  import opened Wrappers
  import opened JsValues
  import opened ErrorFormat
  import opened Libunbound
  import opened ResultConversion

  /** NODE_UB_MAX_STR: 1024 characters, one more to detect overflow, and the NUL. */
  const MaxStr: nat := 1024 + 1 + 1

  /** The longest string the binding passes on. */
  const MaxArgLength: nat := MaxStr - 2

  const StringError: string := "String exceeds maximum length."
  const ContextError: string := "Could not allocate context."
  const UnboundCode: string := "ERR_UNBOUND"

  /** UB_PIPE: the error forced when the asynchronous work did not complete normally. */
  const PipeError: Int32 := -8

  /**
   * `napi_get_value_string_utf8` into a MaxStr buffer: it copies at most
   * MaxStr - 1 characters, then the NUL, and reports how many it copied.
   */
  function Copy(s: string): (c: string)
    ensures c <= s && |c| <= MaxStr - 1
    ensures |s| <= MaxStr - 1 ==> c == s
    ensures |s| >= MaxStr - 1 ==> |c| == MaxStr - 1
  {
    if |s| < MaxStr - 1 then s else s[..MaxStr - 1]
  }

  /**
   * The guard `len != sizeof(buf) - 1`: a string passes exactly when it has
   * at most 1024 characters, and then its copy is the whole string.
   */
  function Fits(s: string): (ok: bool)
    ensures ok <==> |s| <= MaxArgLength
    ensures ok ==> Copy(s) == s
  {
    |Copy(s)| != MaxStr - 1
  }

  /** The guards of one method, on each of its string arguments. */
  predicate AllFit(strs: seq<string>) {
    forall i :: 0 <= i < |strs| ==> Fits(strs[i])
  }

  /** The methods that call the library once with string arguments and return the context handle. */
  predicate IsSetterCall(call: LibCall) {
    || call.SetOption? || call.Config? || call.SetFwd? || call.SetStub?
    || call.ResolvConf? || call.Hosts? || call.AddTa? || call.AddTaFile?
    || call.AddTaAutr? || call.TrustedKeys? || call.ZoneAdd? || call.ZoneRemove?
    || call.DataAdd? || call.DataRemove?
  }

  /** The error NODE_UB_THROW raises for a non-zero library code. */
  function UnboundError(lib: LibAnswer): JsError {
    JsError(Error, Some(UnboundCode), FormatMessage(lib.message, lib.code))
  }

  /**
   * `node_ub_set_option`, `node_ub_set_config`, ... `node_ub_remove_data`:
   * the length guards run before the library is called, so every string
   * the library receives has at most 1024 characters; a non-zero code is
   * thrown as an ERR_UNBOUND error; otherwise the context handle is returned.
   */
  function NapiSetter(call: LibCall, lib: LibAnswer): (r: Outcome)
    requires IsSetterCall(call)
    ensures r.call.Some? <==> AllFit(StringArgs(call))
    ensures r.call.Some? ==> r.call.value == call
    ensures r.call.Some? ==> forall s :: s in StringArgs(call) ==> |s| <= MaxArgLength
    ensures r.result.Success? <==> r.call.Some? && lib.code == 0
    ensures r.result.Success? ==> r.result.value == Handle
    ensures r.call.None? ==> r.result == Failure(JsError(Error, None, StringError))
    ensures r.call.Some? && lib.code != 0 ==> r.result == Failure(UnboundError(lib))
  {
    if !AllFit(StringArgs(call)) then Outcome(None, Failure(JsError(Error, None, StringError)))
    else if lib.code != 0 then Outcome(Some(call), Failure(UnboundError(lib)))
    else Outcome(Some(call), Success(Handle))
  }

  /**
   * `node_ub_add_ta_file`: the flag chooses between the auto-updated and the
   * plain trust anchor file, after the guard on the file name.
   */
  function NapiAddTaFile(fname: string, autr: bool, lib: LibAnswer): (r: Outcome)
    ensures r.call.Some? <==> |fname| <= MaxArgLength
    ensures r.call.Some? ==> StringArgs(r.call.value) == [fname]
    ensures r.call.Some? ==> (r.call.value.AddTaAutr? <==> autr) && (r.call.value.AddTaFile? <==> !autr)
    ensures r.result.Success? <==> r.call.Some? && lib.code == 0
    ensures r.result.Success? ==> r.result.value == Handle
    ensures r.call.Some? && lib.code != 0 ==> r.result == Failure(UnboundError(lib))
    ensures r.call.None? ==> r.result == Failure(JsError(Error, None, StringError))
  {
    var call := if autr then AddTaAutr(fname) else AddTaFile(fname);
    assert StringArgs(call) == [fname];
    assert AllFit(StringArgs(call)) <==> Fits(StringArgs(call)[0]);
    NapiSetter(call, lib)
  }

  /**
   * `node_ub_get_option`: after the guard and the library call, a NULL
   * value becomes null and any other value a string.
   */
  function NapiGetOption(opt: string, lib: LibAnswer): (r: Outcome)
    ensures r.call.Some? <==> |opt| <= MaxArgLength
    ensures r.call.Some? ==> r.call.value == GetOption(opt)
    ensures r.result.Success? <==> r.call.Some? && lib.code == 0
    ensures r.result.Success? ==> r.result.value == (if lib.value.Some? then Str(lib.value.value) else Null)
    ensures r.call.None? ==> r.result == Failure(JsError(Error, None, StringError))
    ensures r.call.Some? && lib.code != 0 ==> r.result == Failure(UnboundError(lib))
  {
    if !Fits(opt) then Outcome(None, Failure(JsError(Error, None, StringError)))
    else if lib.code != 0 then Outcome(Some(GetOption(opt)), Failure(UnboundError(lib)))
    else if lib.value.None? then Outcome(Some(GetOption(opt)), Success(Null))
    else Outcome(Some(GetOption(opt)), Success(Str(lib.value.value)))
  }

  /**
   * `node_ub_create`: create a context, then turn debug output off and set
   * the debug level to 0; a context that fails either step is deleted
   * before the error is thrown, so a context outlives the call exactly when
   * the call succeeds.
   */
  function NapiCreate(created: bool, debugout: LibAnswer, debuglevel: LibAnswer): (r: Trace)
    ensures |r.calls| >= 1 && r.calls[0] == CtxCreate
    ensures r.result.Success? <==> created && debugout.code == 0 && debuglevel.code == 0
    ensures r.result.Success? ==> r.calls == [CtxCreate, DebugOut, DebugLevel(0)] && r.result.value == Handle
    ensures created ==> (CtxDelete in r.calls <==> r.result.Failure?)
    ensures !created ==> r.calls == [CtxCreate] && r.result == Failure(JsError(Error, None, ContextError))
    ensures created && debugout.code != 0 ==> DebugLevel(0) !in r.calls && r.result == Failure(UnboundError(debugout))
    ensures created && debugout.code == 0 && debuglevel.code != 0 ==>
      r == Trace([CtxCreate, DebugOut, DebugLevel(0), CtxDelete], Failure(UnboundError(debuglevel)))
  {
    if !created then Trace([CtxCreate], Failure(JsError(Error, None, ContextError)))
    else if debugout.code != 0 then Trace([CtxCreate, DebugOut, CtxDelete], Failure(UnboundError(debugout)))
    else if debuglevel.code != 0 then Trace([CtxCreate, DebugOut, DebugLevel(0), CtxDelete], Failure(UnboundError(debuglevel)))
    else Trace([CtxCreate, DebugOut, DebugLevel(0)], Success(Handle))
  }

  /** `node_ub_worker_t`: the state of one queued resolution. */
  class NapiWorker {
    /** The NUL-terminated query name buffer. */
    var qname: array<char>
    var qtype: int
    var qclass: int
    var result: Option<UbResult>
    var error: Int32

    /** The name held in the buffer. */
    ghost var name: string

    ghost predicate Valid()
      reads this, qname
    {
      && qname.Length == MaxStr
      && |name| <= MaxArgLength
      && 0 <= qtype < TwoTo32 && 0 <= qclass < TwoTo32
      && qname[..|name|] == name
      && qname[|name|] == '\0'
    }

    /**
     * The worker `node_ub_resolve` allocates: it copies the name and its NUL
     * (`qname_len + 1` characters) into a buffer of the same size as the
     * guard's, and starts with no result and error 0.
     */
    constructor (qnameArg: string, qtypeArg: int, qclassArg: int)
      requires |qnameArg| <= MaxArgLength
      requires 0 <= qtypeArg < TwoTo32 && 0 <= qclassArg < TwoTo32
      ensures Valid() && fresh(qname)
      ensures name == qnameArg && qtype == qtypeArg && qclass == qclassArg
      ensures result == None && error == 0
    {
      var buf := new char[MaxStr];
      var src := qnameArg + ['\0'];
      for i := 0 to |src|
        invariant buf[..i] == src[..i]
      {
        buf[i] := src[i];
      }
      assert buf[..|qnameArg|] == src[..|qnameArg|] && buf[|qnameArg|] == src[|qnameArg|];
      qname := buf;
      qtype := qtypeArg;
      qclass := qclassArg;
      result := None;
      error := 0;
      name := qnameArg;
    }

    /**
     * `node_ub_execute_`: `ub_resolve` reads the name from the buffer up to
     * its NUL and gets the type and class through the `uint32_t` to `int`
     * conversion of its parameters; the worker records the code and the
     * result. The call made is returned. `code` and `res` are the library's
     * answer.
     */
    method Execute(code: Int32, res: Option<UbResult>) returns (call: LibCall)
      requires Valid()
      modifies this`error, this`result
      ensures Valid()
      ensures call == LibCall.Resolve(CString(name), UnsignedToCInt(qtype), UnsignedToCInt(qclass))
      ensures |call.name| <= MaxArgLength
      ensures '\0' !in name ==> call.name == name
      ensures error == code && result == res
    {
      var n := 0;
      while qname[n] != '\0'
        invariant 0 <= n <= |name|
        invariant qname[..n] == name[..n] && '\0' !in qname[..n]
        decreases |name| - n
      {
        assert qname[..n + 1] == qname[..n] + [qname[n]];
        n := n + 1;
      }
      assert qname[..n] == name[..n];
      CStringOfPrefix(name, qname[..n]);
      call := LibCall.Resolve(qname[..n], UnsignedToCInt(qtype), UnsignedToCInt(qclass));
      error := code;
      result := res;
    }

    /**
     * `node_ub_complete_`: a failed work status forces UB_PIPE; with no
     * error the promise is resolved with the 14-slot array (the packet null
     * when its length is 0), otherwise it is rejected with the formatted
     * ERR_UNBOUND error. `message` is `ub_strerror` of the final error.
     */
    method Complete(statusOk: bool, v: Version, message: Option<string>) returns (s: Settlement)
      requires Valid() && (statusOk && error == 0 ==> result.Some?)
      modifies this`error
      ensures Valid()
      ensures error == (if statusOk then old(error) else PipeError)
      ensures error == 0 ==> result.Some? && s == Resolved(ResultArray(result.value, v, ByLength))
      ensures error != 0 ==> s == Rejected(JsError(Error, Some(UnboundCode), FormatMessage(message, error)))
    {
      if !statusOk {
        error := PipeError;
      }
      if error == 0 {
        var out := ConvertResult(result.value, v);
        s := Resolved(out);
      } else {
        s := Rejected(JsError(Error, Some(UnboundCode), FormatMessage(message, error)));
      }
    }
  }

  /**
   * The success branch of `node_ub_complete_`: each of the fourteen slots
   * takes the value its field calls for (null for an absent string, the
   * data buffers up to the first NULL, null for an empty answer packet),
   * then the slots are stored one by one into the array it resolves with.
   */
  method ConvertResult(r: UbResult, v: Version) returns (out: seq<JsValue>)
    ensures out == ResultArray(r, v, ByLength)
  {
    var items := CopyDataItems(r.data, r.hasLen);
    out := SetElements(ResultSlots(r, v, ByLength, Array(items)));
  }

  /** The closing `napi_set_element` loop: the new array holds `values` in order. */
  method SetElements(values: seq<JsValue>) returns (out: seq<JsValue>)
    ensures out == values
  {
    var result := new JsValue[|values|];
    for i := 0 to |values|
      invariant result[..i] == values[..i]
    {
      result[i] := values[i];
    }
    out := result[..];
  }

  /**
   * `node_ub_resolve`: a name that fails the guard is rejected before any
   * worker exists; otherwise a fresh worker holds the name, and the type and
   * class as `napi_get_value_uint32` reads them.
   */
  method NapiResolve(qname: string, qtype: int, qclass: int) returns (w: NapiWorker?, thrown: Option<JsError>)
    ensures w == null <==> |qname| > MaxArgLength
    ensures w == null ==> thrown == Some(JsError(Error, None, StringError))
    ensures w != null ==> thrown == None && fresh(w) && fresh(w.qname) && w.Valid()
    ensures w != null ==> w.name == qname && w.qtype == ToUint32(qtype) && w.qclass == ToUint32(qclass)
    ensures w != null ==> w.result == None && w.error == 0
  {
    if !Fits(qname) {
      w, thrown := null, Some(JsError(Error, None, StringError));
    } else {
      w := new NapiWorker(Copy(qname), ToUint32(qtype), ToUint32(qclass));
      thrown := None;
    }
  }
}
