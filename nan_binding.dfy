/**
 * src/node_unbound.cc: the NAN binding that lib/unbound.js extends. Every
 * method checks its argument count, then the type of each argument in
 * order, before it touches the library; library errors are thrown as plain
 * errors; a resolution runs on a worker that owns the duplicated name and
 * the result, and reports to a callback.
 */
module NanBinding {

  import opened Wrappers
  import opened JsValues
  import opened ErrorFormat
  import opened Libunbound
  import opened ResultConversion

  /** The methods NodeUnbound exposes. */
  datatype Method =
    | Version
    | SetOption
    | GetOption
    | SetConfig
    | SetForward
    | SetStub
    | SetResolvConf
    | SetHosts
    | AddTrustAnchor
    | AddTrustAnchorFile
    | AddTrustedKeys
    | AddZone
    | RemoveZone
    | AddData
    | RemoveData
    | Resolve

  /** The argument types the methods test for. */
  datatype ArgKind = StringArg | BooleanArg | NumberArg | FunctionArg

  /** The JavaScript name of a method. */
  function Name(m: Method): string {
    match m
    case Version => "version"
    case SetOption => "setOption"
    case GetOption => "getOption"
    case SetConfig => "setConfig"
    case SetForward => "setForward"
    case SetStub => "setStub"
    case SetResolvConf => "setResolvConf"
    case SetHosts => "setHosts"
    case AddTrustAnchor => "addTrustAnchor"
    case AddTrustAnchorFile => "addTrustAnchorFile"
    case AddTrustedKeys => "addTrustedKeys"
    case AddZone => "addZone"
    case RemoveZone => "removeZone"
    case AddData => "addData"
    case RemoveData => "removeData"
    case Resolve => "resolve"
  }

  /** The exact arguments each method takes, in order. */
  function Signature(m: Method): (sig: seq<ArgKind>)
    ensures m.Version? <==> |sig| == 0
    ensures m.Resolve? <==> |sig| == 4
    ensures m.SetStub? <==> |sig| == 3
    ensures |sig| > 0 ==> sig[0] == StringArg
  {
    match m
    case Version => []
    case SetOption => [StringArg, StringArg]
    case SetStub => [StringArg, StringArg, BooleanArg]
    case AddTrustAnchorFile => [StringArg, BooleanArg]
    case AddZone => [StringArg, StringArg]
    case Resolve => [StringArg, NumberArg, NumberArg, FunctionArg]
    case _ => [StringArg]
  }

  /** The message thrown for a wrong argument count. */
  function ArityMessage(m: Method): string {
    if m.Version? then "unbound.version() requires no arguments."
    else "unbound." + Name(m) + "() requires arguments."
  }

  function Ordinal(i: nat): string
    requires i < 4
  {
    ["First", "Second", "Third", "Fourth"][i]
  }

  function Article(k: ArgKind): string {
    match k
    case StringArg => "a string"
    case BooleanArg => "a boolean"
    case NumberArg => "a number"
    case FunctionArg => "a function"
  }

  /** The message of the TypeError thrown for argument `i` not being of kind `k`. */
  function TypeMessage(i: nat, k: ArgKind): string
    requires i < 4
  {
    Ordinal(i) + " argument must be " + Article(k) + "."
  }

  /** `IsString()`, `IsBoolean()`, `IsNumber()`, `IsFunction()`. */
  predicate HasKind(v: JsValue, k: ArgKind) {
    match k
    case StringArg => v.Str?
    case BooleanArg => v.Bool?
    case NumberArg => v.Num?
    case FunctionArg => v.Function?
  }

  /** The position of the first argument whose type is wrong, if any. */
  function FirstMismatch(args: seq<JsValue>, sig: seq<ArgKind>): (r: Option<nat>)
    requires |args| == |sig|
    ensures r.None? <==> forall i :: 0 <= i < |sig| ==> HasKind(args[i], sig[i])
    ensures r.Some? ==>
      && r.value < |sig|
      && !HasKind(args[r.value], sig[r.value])
      && forall j :: 0 <= j < r.value ==> HasKind(args[j], sig[j])
    decreases |sig|
  {
    if |sig| == 0 then None
    else if !HasKind(args[0], sig[0]) then Some(0)
    else
      match FirstMismatch(args[1..], sig[1..])
      case None => None
      case Some(i) => Some(i + 1)
  }

  /** All arguments have the types the method asks for. */
  predicate WellTyped(m: Method, args: seq<JsValue>) {
    |args| == |Signature(m)| && forall i :: 0 <= i < |args| ==> HasKind(args[i], Signature(m)[i])
  }

  /**
   * The checks at the head of every NAN_METHOD: a wrong count throws the
   * method's arity error whatever the arguments are; otherwise the first
   * argument of the wrong type throws its TypeError; None when both pass.
   */
  function CheckArgs(m: Method, args: seq<JsValue>): (r: Option<JsError>)
    ensures r.None? <==> WellTyped(m, args)
    ensures |args| != |Signature(m)| ==> r == Some(JsError(Error, None, ArityMessage(m)))
    ensures |args| == |Signature(m)| && r.Some? ==>
      exists i :: 0 <= i < |args| && r == Some(JsError(TypeError, None, TypeMessage(i, Signature(m)[i])))
        && !HasKind(args[i], Signature(m)[i])
        && forall j :: 0 <= j < i ==> HasKind(args[j], Signature(m)[j])
  {
    var sig := Signature(m);
    if |args| != |sig| then Some(JsError(Error, None, ArityMessage(m)))
    else
      match FirstMismatch(args, sig)
      case None => None
      case Some(i) => Some(JsError(TypeError, None, TypeMessage(i, sig[i])))
  }

  /**
   * With the right count, an argument of the wrong kind whose predecessors
   * all have theirs is the one the TypeError names.
   */
  lemma CheckArgsAt(m: Method, args: seq<JsValue>, i: nat)
    requires |args| == |Signature(m)| && i < |args|
    requires !HasKind(args[i], Signature(m)[i])
    requires forall j :: 0 <= j < i ==> HasKind(args[j], Signature(m)[j])
    ensures CheckArgs(m, args) == Some(JsError(TypeError, None, TypeMessage(i, Signature(m)[i])))
  {
    var k := FirstMismatch(args, Signature(m));
    assert k.Some?;
  }

  /** `info[i]`, or `items[i]` in JavaScript: undefined past the values actually there. */
  function ArgAt(args: seq<JsValue>, i: nat): (v: JsValue)
    ensures i >= |args| ==> v == Undefined
    ensures i < |args| ==> v == args[i]
  {
    if i < |args| then args[i] else Undefined
  }

  /**
   * The flag `AddTrustAnchorFile` hands to its branch, as the code reads it:
   * `Nan::To<bool>(info[2])`, one past the two arguments the arity check
   * admits.
   */
  function AddTrustAnchorFileFlagAsWritten(args: seq<JsValue>): (flag: bool)
    ensures |args| <= 2 ==> !flag
  {
    ToBoolean(ArgAt(args, 2))
  }

  /**
   * The library call `AddTrustAnchorFile` makes as written: every call the
   * checks accept ignores its flag and reads the file as a plain trust
   * anchor file.
   */
  function AddTrustAnchorFileAsWritten(args: seq<JsValue>): (call: LibCall)
    requires WellTyped(AddTrustAnchorFile, args)
    ensures call == AddTaFile(args[0].s)
  {
    var file := args[0].s;
    if AddTrustAnchorFileFlagAsWritten(args) then AddTaAutr(file) else AddTaFile(file)
  }

  /** The input that shows it: asking for an auto-updated anchor still takes the plain branch. */
  lemma AddTrustAnchorFileSlip()
    ensures WellTyped(AddTrustAnchorFile, [Str("root.key"), Bool(true)])
    ensures AddTrustAnchorFileAsWritten([Str("root.key"), Bool(true)]) == AddTaFile("root.key")
    ensures AddTrustAnchorFileCall([Str("root.key"), Bool(true)]) == AddTaAutr("root.key")
  {
  }

  /** `AddTrustAnchorFile` as intended: the flag is the second argument. */
  function AddTrustAnchorFileCall(args: seq<JsValue>): (call: LibCall)
    requires WellTyped(AddTrustAnchorFile, args)
    ensures call.AddTaAutr? <==> args[1].b
    ensures call.AddTaAutr? || call.AddTaFile?
    ensures StringArgs(call) == [args[0].s]
  {
    if ToBoolean(ArgAt(args, 1)) then AddTaAutr(args[0].s) else AddTaFile(args[0].s)
  }

  /** The methods that make one library call and return `this` or a value at once. */
  predicate IsSynchronous(m: Method) {
    !m.Version? && !m.Resolve?
  }

  /**
   * The library call a method makes with well-typed arguments, each string
   * passed whole (`Nan::Utf8String`) and the boolean taken as is.
   */
  function LibCallOf(m: Method, args: seq<JsValue>): (call: LibCall)
    requires IsSynchronous(m) && WellTyped(m, args)
    ensures |StringArgs(call)| <= |args|
    ensures forall i :: 0 <= i < |args| ==> (Signature(m)[i] == StringArg <==> i < |StringArgs(call)|)
    ensures forall i :: 0 <= i < |StringArgs(call)| ==> args[i] == Str(StringArgs(call)[i])
    ensures m.AddTrustAnchorFile? ==> (call.AddTaAutr? <==> args[1].b) && (call.AddTaFile? <==> !args[1].b)
  {
    match m
    case SetOption => LibCall.SetOption(args[0].s, args[1].s)
    case GetOption => LibCall.GetOption(args[0].s)
    case SetConfig => Config(args[0].s)
    case SetForward => SetFwd(args[0].s)
    case SetStub => LibCall.SetStub(args[0].s, args[1].s, args[2].b)
    case SetResolvConf => ResolvConf(args[0].s)
    case SetHosts => Hosts(args[0].s)
    case AddTrustAnchor => AddTa(args[0].s)
    case AddTrustAnchorFile => AddTrustAnchorFileCall(args)
    case AddTrustedKeys => TrustedKeys(args[0].s)
    case AddZone => ZoneAdd(args[0].s, args[1].s)
    case RemoveZone => ZoneRemove(args[0].s)
    case AddData => DataAdd(args[0].s)
    case RemoveData => DataRemove(args[0].s)
  }

  /** NU_THROW_ERROR: a plain Error whose message is the formatted library error. */
  function LibError(lib: LibAnswer): JsError {
    JsError(Error, None, NuStrerror(lib.message, lib.code))
  }

  /**
   * One synchronous method call: a rejected argument list throws before any
   * library call; otherwise the library is called once, a non-zero code is
   * thrown, `getOption` returns the value (null for NULL) and every other
   * method returns `this`.
   */
  function Invoke(m: Method, args: seq<JsValue>, lib: LibAnswer): (r: Outcome)
    requires IsSynchronous(m)
    ensures r.call.Some? <==> WellTyped(m, args)
    ensures r.call.None? ==> r.result == Failure(CheckArgs(m, args).value)
    ensures r.call.Some? ==> r.call.value == LibCallOf(m, args)
    ensures r.result.Success? <==> r.call.Some? && lib.code == 0
    ensures r.call.Some? && lib.code != 0 ==> r.result == Failure(LibError(lib))
    ensures r.result.Success? && !m.GetOption? ==> r.result.value == Receiver
    ensures r.result.Success? && m.GetOption? ==> r.result.value == NullableString(lib.value)
  {
    match CheckArgs(m, args)
    case Some(e) => Outcome(None, Failure(e))
    case None =>
      var call := LibCallOf(m, args);
      if lib.code != 0 then Outcome(Some(call), Failure(LibError(lib)))
      else if m.GetOption? then Outcome(Some(call), Success(NullableString(lib.value)))
      else Outcome(Some(call), Success(Receiver))
  }

  /**
   * `addTrustAnchorFile` as dispatched here follows the corrected reading of
   * its flag; the code as written makes a different call exactly when the
   * flag is true.
   */
  lemma AddTrustAnchorFileDispatch(args: seq<JsValue>, lib: LibAnswer)
    requires WellTyped(AddTrustAnchorFile, args)
    ensures Invoke(AddTrustAnchorFile, args, lib).call == Some(AddTrustAnchorFileCall(args))
    ensures Invoke(AddTrustAnchorFile, args, lib).call != Some(AddTrustAnchorFileAsWritten(args)) <==> args[1].b
  {
  }

  /** A wrong argument count is reported first, whatever the types of the arguments passed. */
  lemma ArityBeforeTypes(m: Method, args: seq<JsValue>, lib: LibAnswer)
    requires IsSynchronous(m) && |args| != |Signature(m)|
    ensures Invoke(m, args, lib) == Outcome(None, Failure(JsError(Error, None, ArityMessage(m))))
  {
  }

  /** `setStub` passes its third argument as the `isprime` flag, and its two strings whole. */
  lemma SetStubCall(zone: string, addr: string, isprime: bool, lib: LibAnswer)
    ensures Invoke(Method.SetStub, [Str(zone), Str(addr), Bool(isprime)], lib).call == Some(LibCall.SetStub(zone, addr, isprime))
  {
  }

  /** `version()`: no arguments allowed; returns the library's version string. */
  function NanVersion(args: seq<JsValue>, version: string): (r: Result<JsValue, JsError>)
    ensures r.Success? <==> |args| == 0
    ensures r.Success? ==> r.value == Str(version)
    ensures r.Failure? ==> r.error == JsError(Error, None, "unbound.version() requires no arguments.")
  {
    match CheckArgs(Method.Version, args)
    case Some(e) => Failure(e)
    case None => Success(Str(version))
  }

  const CreateError: string := "Could not create Unbound instance."

  /**
   * `NodeUnbound::New`: outside a construct call nothing is created; a NULL
   * context throws; then debug output is turned off and the debug level set
   * to 0, each failure thrown as a library error. The context is never
   * deleted here: it belongs to the wrapped object from the start.
   */
  function NanNew(isConstructCall: bool, created: bool, debugout: LibAnswer, debuglevel: LibAnswer): (r: Trace)
    ensures !isConstructCall ==> r == Trace([], Failure(JsError(Error, None, CreateError)))
    ensures isConstructCall ==> |r.calls| >= 1 && r.calls[0] == CtxCreate
    ensures isConstructCall && !created ==> r == Trace([CtxCreate], Failure(JsError(Error, None, CreateError)))
    ensures r.result.Success? <==> isConstructCall && created && debugout.code == 0 && debuglevel.code == 0
    ensures r.result.Success? ==> r.calls == [CtxCreate, DebugOut, DebugLevel(0)] && r.result.value == Receiver
    ensures isConstructCall && created && debugout.code != 0 ==> r == Trace([CtxCreate, DebugOut], Failure(LibError(debugout)))
    ensures isConstructCall && created && debugout.code == 0 && debuglevel.code != 0 ==>
      r == Trace([CtxCreate, DebugOut, DebugLevel(0)], Failure(LibError(debuglevel)))
    ensures CtxDelete !in r.calls
  {
    if !isConstructCall then Trace([], Failure(JsError(Error, None, CreateError)))
    else if !created then Trace([CtxCreate], Failure(JsError(Error, None, CreateError)))
    else if debugout.code != 0 then Trace([CtxCreate, DebugOut], Failure(LibError(debugout)))
    else if debuglevel.code != 0 then Trace([CtxCreate, DebugOut, DebugLevel(0)], Failure(LibError(debuglevel)))
    else Trace([CtxCreate, DebugOut, DebugLevel(0)], Success(Receiver))
  }

  /**
   * `NodeUnboundWorker`. `name` and `result` are the owned pointers (None
   * for NULL); the ghost counters record how often each was freed and how
   * many results the library handed over.
   */
  class NanWorker {
    var name: Option<string>
    var rrtype: Int32
    var rrclass: Int32
    var result: Option<UbResult>
    /** Nan::AsyncWorker's error message, set by NU_SET_ERROR. */
    var errorMessage: Option<string>

    ghost var executed: bool
    ghost var nameFrees: nat
    ghost var resultAllocs: nat
    ghost var resultFrees: nat

    /**
     * Ownership: the name is either still held or was freed once; every
     * result handed over is either still held or freed; at most one is
     * handed over, by the single run of Execute.
     */
    ghost predicate Valid()
      reads this
    {
      && (if name.Some? then 1 else 0) + nameFrees == 1
      && resultFrees + (if result.Some? then 1 else 0) == resultAllocs
      && resultAllocs <= (if executed then 1 else 0)
    }

    constructor (qname: string, rrtypeArg: Int32, rrclassArg: Int32)
      ensures Valid() && !executed
      ensures name == Some(qname) && rrtype == rrtypeArg && rrclass == rrclassArg
      ensures result == None && errorMessage == None
    {
      name := Some(qname);
      rrtype := rrtypeArg;
      rrclass := rrclassArg;
      result := None;
      errorMessage := None;
      executed := false;
      nameFrees := 0;
      resultAllocs := 0;
      resultFrees := 0;
    }

    /**
     * `Execute`: `ub_resolve` is called with the owned name, the type and the
     * class, and stores its result pointer in the worker; a non-zero code
     * becomes the formatted error message. The call made is returned.
     * `code` and `res` are the library's answer, `message` is `ub_strerror`
     * of that code.
     */
    method Execute(code: Int32, res: Option<UbResult>, message: Option<string>) returns (call: LibCall)
      requires Valid() && !executed && result.None? && errorMessage.None? && name.Some?
      modifies this
      ensures Valid() && executed
      ensures call == LibCall.Resolve(old(name).value, rrtype, rrclass)
      ensures result == res && name == old(name) && rrtype == old(rrtype) && rrclass == old(rrclass)
      ensures errorMessage == (if code != 0 then Some(NuStrerror(message, code)) else None)
      ensures nameFrees == old(nameFrees) && resultFrees == old(resultFrees)
    {
      call := LibCall.Resolve(name.value, rrtype, rrclass);
      result := res;
      executed := true;
      resultAllocs := if res.Some? then 1 else 0;
      if code != 0 {
        errorMessage := Some(NuStrerror(message, code));
      }
    }

    /**
     * `HandleOKCallback`: the callback receives null and the 14-slot array,
     * the packet null exactly when its pointer is NULL; the result is then
     * freed and the pointer cleared, so the destructor will not free it again.
     */
    method HandleOKCallback(v: Version) returns (argv: seq<JsValue>)
      requires Valid() && result.Some?
      modifies this`result, this`resultFrees
      ensures Valid() && result == None && resultFrees == old(resultFrees) + 1
      ensures argv == [Null, Array(ResultArray(old(result).value, v, ByPointer))]
    {
      var r := result.value;
      var items := CopyDataItems(r.data, r.hasLen);
      var ret := ResultSlots(r, v, ByPointer, Array(items));
      result := None;
      resultFrees := resultFrees + 1;
      argv := [Null, Array(ret)];
    }

    /**
     * What the worker reports once `Execute` is done: with no error message
     * the callback gets `HandleOKCallback`'s arguments; otherwise it gets
     * only an Error carrying the message, and the result stays with the
     * worker for the destructor.
     */
    method WorkComplete(v: Version) returns (err: Option<JsError>, items: seq<JsValue>)
      requires Valid() && executed && (errorMessage.None? ==> result.Some?)
      modifies this`result, this`resultFrees
      ensures Valid()
      ensures old(errorMessage).None? ==> err.None? && items == ResultArray(old(result).value, v, ByPointer) && result == None
      ensures old(errorMessage).Some? ==> err == Some(JsError(Error, None, errorMessage.value)) && items == [] && result == old(result)
    {
      if errorMessage.None? {
        var argv := HandleOKCallback(v);
        err, items := None, argv[1].items;
      } else {
        err, items := Some(JsError(Error, None, errorMessage.value)), [];
      }
    }

    /**
     * `~NodeUnboundWorker`: frees the name and any result still held and
     * clears both pointers; afterwards the name has been freed exactly once
     * and every result handed over exactly once.
     */
    method Destroy()
      requires Valid()
      modifies this`name, this`result, this`nameFrees, this`resultFrees
      ensures Valid() && name == None && result == None
      ensures nameFrees == 1 && resultFrees == resultAllocs && resultFrees <= 1
    {
      if name.Some? {
        name := None;
        nameFrees := nameFrees + 1;
      }
      if result.Some? {
        result := None;
        resultFrees := resultFrees + 1;
      }
    }
  }

  /**
   * The checks of `NodeUnbound::Resolve`, in order: the name must be a
   * string, then the type, the class and the callback must be a number, a
   * number and a function; the first that fails is reported.
   */
  lemma ResolveChecks(name: JsValue, qtype: JsValue, qclass: JsValue, callback: JsValue)
    ensures var args := [name, qtype, qclass, callback];
      && (WellTyped(Method.Resolve, args) <==> name.Str? && qtype.Num? && qclass.Num? && callback.Function?)
      && (!name.Str? ==> CheckArgs(Method.Resolve, args) == Some(JsError(TypeError, None, TypeMessage(0, StringArg))))
      && (name.Str? && !qtype.Num? ==> CheckArgs(Method.Resolve, args) == Some(JsError(TypeError, None, TypeMessage(1, NumberArg))))
      && (name.Str? && qtype.Num? && !qclass.Num? ==>
            CheckArgs(Method.Resolve, args) == Some(JsError(TypeError, None, TypeMessage(2, NumberArg))))
  {
    var args := [name, qtype, qclass, callback];
    var sig := Signature(Method.Resolve);
    assert WellTyped(Method.Resolve, args) <==>
      HasKind(args[0], sig[0]) && HasKind(args[1], sig[1]) && HasKind(args[2], sig[2]) && HasKind(args[3], sig[3]);
    if !name.Str? {
      assert FirstMismatch(args, sig) == Some(0);
    } else if !qtype.Num? {
      assert HasKind(args[0], sig[0]) && !HasKind(args[1], sig[1]);
      assert FirstMismatch(args, sig) == Some(1);
    } else if !qclass.Num? {
      assert HasKind(args[0], sig[0]) && HasKind(args[1], sig[1]) && !HasKind(args[2], sig[2]);
      assert FirstMismatch(args, sig) == Some(2);
    }
  }

  const MemoryError: string := "Could not allocate memory."

  /**
   * `NodeUnbound::Resolve`: after the checks the name is duplicated
   * (`strdup`, which can fail) and the type and class go through ToUint32
   * and a cast to `int`; a fresh worker owns the copy, and the method
   * returns `this`.
   */
  method NanResolve(args: seq<JsValue>, memoryOk: bool) returns (w: NanWorker?, r: Result<JsValue, JsError>)
    ensures w != null <==> WellTyped(Method.Resolve, args) && memoryOk
    ensures !WellTyped(Method.Resolve, args) ==> r == Failure(CheckArgs(Method.Resolve, args).value)
    ensures WellTyped(Method.Resolve, args) && !memoryOk ==> r == Failure(JsError(Error, None, MemoryError))
    ensures w != null ==> r == Success(Receiver) && fresh(w) && w.Valid() && !w.executed
    ensures w != null ==> w.name == Some(CString(args[0].s)) && w.result == None && w.errorMessage == None
    ensures w != null && '\0' !in args[0].s ==> w.name == Some(args[0].s)
    ensures w != null ==> ToUint32(w.rrtype) == ToUint32(args[1].n) && ToUint32(w.rrclass) == ToUint32(args[2].n)
  {
    match CheckArgs(Method.Resolve, args)
    case Some(e) =>
      w, r := null, Failure(e);
    case None =>
      if !memoryOk {
        w, r := null, Failure(JsError(Error, None, MemoryError));
      } else {
        var rrtype := UnsignedToCInt(ToUint32(args[1].n));
        var rrclass := UnsignedToCInt(ToUint32(args[2].n));
        w := new NanWorker(CString(args[0].s), rrtype, rrclass);
        r := Success(Receiver);
      }
  }

  /**
   * The two packet rules agree except on a present but empty packet, which
   * this binding passes as an empty buffer and node_unbound.c as null.
   */
  lemma CallbackMatchesPromise(r: UbResult, v: Version)
    requires r.answerPacket != Some([])
    ensures ResultArray(r, v, ByPointer) == ResultArray(r, v, ByLength)
  {
    PacketRulesDiffer(r, v);
  }
}
