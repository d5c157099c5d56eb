/**
 * lib/unbound.js: the `Unbound` class over the NAN binding. It normalises
 * option names and domain names, converts option values to and from
 * libunbound's string form, records in `finalized` that the context has
 * been put to use, and turns the callback's positional array into an
 * `UnboundResult`.
 */
module UnboundJs {

  import opened Wrappers
  import opened JsValues
  import opened ErrorFormat
  import opened Libunbound
  import opened ResultConversion
  import opened OptionCodec
  import opened NanBinding

  /** A default parameter: it applies when the argument is undefined, and only then. */
  function Default(v: JsValue, d: JsValue): (r: JsValue)
    ensures v.Undefined? ==> r == d
    ensures !v.Undefined? ==> r == v
  {
    if v.Undefined? then d else v
  }

  /** `e.message.startsWith(...)`. */
  predicate StartsWith(s: string, p: string) {
    p <= s
  }

  /** The prefix `hasOption` recognises library errors by. */
  const LibPrefix: string := "libunbound:"

  /** Every formatted library error carries the prefix; the binding's own TypeErrors do not. */
  lemma LibErrorPrefix(lib: LibAnswer)
    ensures StartsWith(LibError(lib).message, LibPrefix)
    ensures !StartsWith(TypeMessage(0, StringArg), LibPrefix)
  {
    var m := LibError(lib).message;
    assert Prefix <= m;
    assert m[..|LibPrefix|] == Prefix[..|LibPrefix|];
    assert TypeMessage(0, StringArg)[0] == 'F';
  }

  /** What the promise returned by `resolve` does: still pending, fulfilled, or rejected. */
  datatype Promise = Pending | Fulfilled(value: UnboundResult) | Rejected(error: JsError)

  /** `UnboundResult`: the fourteen items under their names. */
  datatype UnboundResult = UnboundResult(
    qname: JsValue,
    qtype: JsValue,
    qclass: JsValue,
    data: JsValue,
    canonName: JsValue,
    rcode: JsValue,
    answerPacket: JsValue,
    haveData: JsValue,
    nxDomain: JsValue,
    secure: JsValue,
    bogus: JsValue,
    whyBogus: JsValue,
    wasRateLimited: JsValue,
    ttl: JsValue)
  {
    /** The `msg` getter: another name for `answerPacket`. */
    function Msg(): JsValue {
      answerPacket
    }

    /** The `msg` setter. */
    function SetMsg(val: JsValue): (r: UnboundResult)
      ensures r.Msg() == val && r.answerPacket == val
      ensures r.Fields()[..6] == Fields()[..6] && r.Fields()[7..] == Fields()[7..]
    {
      this.(answerPacket := val)
    }

    /** The `reason` getter: another name for `whyBogus`. */
    function Reason(): JsValue {
      whyBogus
    }

    /** The `reason` setter. */
    function SetReason(val: JsValue): (r: UnboundResult)
      ensures r.Reason() == val && r.whyBogus == val
      ensures r.Fields()[..11] == Fields()[..11] && r.Fields()[12..] == Fields()[12..]
    {
      this.(whyBogus := val)
    }

    /** The fields in the order the constructor reads them from `items`. */
    function Fields(): (f: seq<JsValue>)
      ensures |f| == Slots
    {
      [qname, qtype, qclass, data, canonName, rcode, answerPacket,
       haveData, nxDomain, secure, bogus, whyBogus, wasRateLimited, ttl]
    }
  }

  /** `new UnboundResult(items)`: field i is `items[i]`. */
  function FromItems(items: seq<JsValue>): (res: UnboundResult)
    ensures forall i :: 0 <= i < Slots ==> res.Fields()[i] == ArgAt(items, i)
  {
    UnboundResult(ArgAt(items, 0), ArgAt(items, 1), ArgAt(items, 2), ArgAt(items, 3),
      ArgAt(items, 4), ArgAt(items, 5), ArgAt(items, 6), ArgAt(items, 7),
      ArgAt(items, 8), ArgAt(items, 9), ArgAt(items, 10), ArgAt(items, 11),
      ArgAt(items, 12), ArgAt(items, 13))
  }

  /** Reading a result's own fields back gives the same result: the mapping is positional and complete. */
  lemma FromItemsOfFields(res: UnboundResult)
    ensures FromItems(res.Fields()) == res
  {
    var f := res.Fields();
    assert f[0] == res.qname && f[6] == res.answerPacket && f[13] == res.ttl;
  }

  /** A fourteen-item array is recovered whole from the result built on it. */
  lemma FieldsOfFromItems(items: seq<JsValue>)
    requires |items| == Slots
    ensures FromItems(items).Fields() == items
  {
    var f := FromItems(items).Fields();
    assert forall i :: 0 <= i < Slots ==> f[i] == items[i];
  }

  /**
   * The callback `resolve` passes to the binding: an error rejects the
   * promise; otherwise it is fulfilled with the result built on `items`.
   */
  function Callback(err: Option<JsError>, items: seq<JsValue>): (p: Promise)
    ensures err.Some? ==> p == Promise.Rejected(err.value)
    ensures err.None? ==> p.Fulfilled? && p.value.Fields() == seq(Slots, i requires 0 <= i < Slots => ArgAt(items, i))
  {
    if err.Some? then Promise.Rejected(err.value) else Fulfilled(FromItems(items))
  }

  /**
   * End to end: the array the NAN worker hands over becomes a result whose
   * fields are the converted `ub_result` fields, with `msg` the packet and
   * `reason` the bogus explanation.
   */
  lemma ResultOfConversion(r: UbResult, v: Version)
    ensures var res := FromItems(ResultArray(r, v, ByPointer));
      && res.Fields() == ResultArray(r, v, ByPointer)
      && res.qname == NullableString(r.qname)
      && res.qtype == Num(ToUint32(r.qtype)) && res.qclass == Num(ToUint32(r.qclass))
      && res.data == DataArray(r.data, r.hasLen)
      && res.canonName == NullableString(r.canonname) && res.rcode == Num(ToUint32(r.rcode))
      && res.Msg() == PacketSlot(r, ByPointer)
      && res.haveData == Bool(r.havedata) && res.nxDomain == Bool(r.nxdomain)
      && res.secure == Bool(r.secure) && res.bogus == Bool(r.bogus)
      && res.Reason() == NullableString(r.whyBogus)
      && res.wasRateLimited == Bool(RateLimitedSlot(r, v))
      && res.ttl == Num(ToUint32(r.ttl))
  {
    var items := ResultArray(r, v, ByPointer);
    FieldsOfFromItems(items);
  }

  /**
   * The shape a validated answer takes: secure, not bogus, no reason, and a
   * non-empty packet as a buffer.
   */
  lemma SecureAnswer(r: UbResult, v: Version)
    requires r.secure && !r.bogus && r.whyBogus.None?
    requires r.answerPacket.Some? && |r.answerPacket.value| > 0
    ensures var res := FromItems(ResultArray(r, v, ByPointer));
      && res.secure == Bool(true) && res.bogus == Bool(false) && res.Reason() == Null
      && res.Msg().Buffer? && |res.Msg().bytes| > 0
  {
    ResultOfConversion(r, v);
  }

  /** `class Unbound extends NodeUnbound`. */
  class Unbound {
    /** Set once the context has been put to use. */
    var finalized: bool

    /** A new instance has not been put to use; NodeUnbound's own construction is `NanNew`. */
    constructor ()
      ensures !finalized
    {
      finalized := false;
    }

    /**
     * `setOption`: the name gets its colon, the value its string form, and
     * both go to the binding; a non-string name (or a value with no string
     * form) is rejected there with a TypeError.
     */
    method SetOption(opt: JsValue, val: JsValue, lib: LibAnswer) returns (r: Outcome)
      ensures r.call.Some? <==> opt.Str? && EncodeValue(val).Str?
      ensures r.call.Some? ==> r.call.value == LibCall.SetOption(ColonName(opt.s), EncodeValue(val).s)
      ensures r.result.Success? <==> r.call.Some? && lib.code == 0
      ensures r.result.Success? ==> r.result.value == Receiver
      ensures r.call.Some? && lib.code != 0 ==> r.result == Failure(LibError(lib))
      ensures !opt.Str? ==> r.result == Failure(JsError(TypeError, None, TypeMessage(0, StringArg)))
      ensures opt.Str? && !EncodeValue(val).Str? ==> r.result == Failure(JsError(TypeError, None, TypeMessage(1, StringArg)))
      ensures r == Invoke(Method.SetOption, [Colon(opt), EncodeValue(val)], lib)
    {
      var args := [Colon(opt), EncodeValue(val)];
      if opt.Str? && !EncodeValue(val).Str? {
        CheckArgsAt(Method.SetOption, args, 1);
      }
      r := Invoke(Method.SetOption, args, lib);
    }

    /** `getOption`: the name gets its colon; the library's answer is decoded. */
    method GetOption(opt: JsValue, lib: LibAnswer) returns (r: Outcome)
      ensures r.call.Some? <==> opt.Str?
      ensures r.call.Some? ==> r.call.value == LibCall.GetOption(ColonName(opt.s))
      ensures r.result.Success? <==> opt.Str? && lib.code == 0
      ensures r.result.Success? ==> r.result.value == DecodeValue(NullableString(lib.value))
      ensures opt.Str? && lib.code != 0 ==> r.result == Failure(LibError(lib))
      ensures !opt.Str? ==> r.result == Failure(JsError(TypeError, None, TypeMessage(0, StringArg)))
    {
      var raw := Invoke(Method.GetOption, [Colon(opt)], lib);
      if raw.result.Success? {
        r := Outcome(raw.call, Success(DecodeValue(raw.result.value)));
      } else {
        r := raw;
      }
    }

    /**
     * `hasOption`: true when the option can be read, false when reading it
     * fails in the library, and any other error is rethrown.
     */
    method HasOption(opt: JsValue, lib: LibAnswer) returns (r: Result<bool, JsError>)
      ensures opt.Str? ==> r == Success(lib.code == 0)
      ensures !opt.Str? ==> r == Failure(JsError(TypeError, None, TypeMessage(0, StringArg)))
    {
      var got := GetOption(opt, lib);
      if got.result.Success? {
        r := Success(true);
      } else if StartsWith(got.result.error.message, LibPrefix) {
        r := Success(false);
      } else {
        r := Failure(got.result.error);
      }
      LibErrorPrefix(lib);
    }

    /**
     * `tryOption`: sets the option only when `hasOption` holds, and returns
     * `this` unless something threw. `probe` answers the read, `lib` the write.
     */
    method TryOption(opt: JsValue, val: JsValue, probe: LibAnswer, lib: LibAnswer) returns (t: Trace)
      ensures opt.Str? && probe.code != 0 ==> t == Trace([LibCall.GetOption(ColonName(opt.s))], Success(Receiver))
      ensures opt.Str? && probe.code == 0 && EncodeValue(val).Str? ==>
        && t.calls == [LibCall.GetOption(ColonName(opt.s)), LibCall.SetOption(ColonName(opt.s), EncodeValue(val).s)]
        && t.result == (if lib.code == 0 then Success(Receiver) else Failure(LibError(lib)))
      ensures opt.Str? && probe.code == 0 && !EncodeValue(val).Str? ==>
        t == Trace([LibCall.GetOption(ColonName(opt.s))], Failure(JsError(TypeError, None, TypeMessage(1, StringArg))))
      ensures !opt.Str? ==> t == Trace([], Failure(JsError(TypeError, None, TypeMessage(0, StringArg))))
    {
      var has := HasOption(opt, probe);
      if has.Failure? {
        t := Trace([], Failure(has.error));
      } else {
        var read := [LibCall.GetOption(ColonName(opt.s))];
        if has.value {
          var wrote := SetOption(opt, val, lib);
          var written := if wrote.call.Some? then [wrote.call.value] else [];
          t := Trace(read + written, if wrote.result.Failure? then Failure(wrote.result.error) else Success(Receiver));
        } else {
          t := Trace(read, Success(Receiver));
        }
      }
    }

    /** `setStub`: `prime` defaults to false. */
    method SetStub(zone: JsValue, addr: JsValue, prime: JsValue, lib: LibAnswer) returns (r: Outcome)
      ensures r.call.Some? <==> zone.Str? && addr.Str? && (prime.Undefined? || prime.Bool?)
      ensures r.call.Some? ==> r.call.value == LibCall.SetStub(zone.s, addr.s, prime.Bool? && prime.b)
      ensures r.result.Success? <==> r.call.Some? && lib.code == 0
      ensures r.result.Success? ==> r.result.value == Receiver
      ensures r.call.Some? && lib.code != 0 ==> r.result == Failure(LibError(lib))
      ensures !zone.Str? ==> r.result == Failure(JsError(TypeError, None, TypeMessage(0, StringArg)))
      ensures zone.Str? && !addr.Str? ==> r.result == Failure(JsError(TypeError, None, TypeMessage(1, StringArg)))
      ensures zone.Str? && addr.Str? && !(prime.Undefined? || prime.Bool?) ==> r.result == Failure(JsError(TypeError, None, TypeMessage(2, BooleanArg)))
      ensures r == Invoke(Method.SetStub, [zone, addr, Default(prime, Bool(false))], lib)
    {
      var args := [zone, addr, Default(prime, Bool(false))];
      if !zone.Str? {
        CheckArgsAt(Method.SetStub, args, 0);
      } else if !addr.Str? {
        CheckArgsAt(Method.SetStub, args, 1);
      } else if !(prime.Undefined? || prime.Bool?) {
        CheckArgsAt(Method.SetStub, args, 2);
      }
      r := Invoke(Method.SetStub, args, lib);
    }

    /** `addTrustAnchorFile`: `autr` defaults to false and chooses the auto-updated form. */
    method AddTrustAnchorFile(file: JsValue, autr: JsValue, lib: LibAnswer) returns (r: Outcome)
      ensures r.call.Some? <==> file.Str? && (autr.Undefined? || autr.Bool?)
      ensures r.call.Some? ==> r.call.value == (if autr.Bool? && autr.b then AddTaAutr(file.s) else AddTaFile(file.s))
      ensures r.result.Success? <==> r.call.Some? && lib.code == 0
      ensures r.result.Success? ==> r.result.value == Receiver
      ensures r.call.Some? && lib.code != 0 ==> r.result == Failure(LibError(lib))
      ensures !file.Str? ==> r.result == Failure(JsError(TypeError, None, TypeMessage(0, StringArg)))
      ensures file.Str? && !(autr.Undefined? || autr.Bool?) ==> r.result == Failure(JsError(TypeError, None, TypeMessage(1, BooleanArg)))
      ensures r == Invoke(Method.AddTrustAnchorFile, [file, Default(autr, Bool(false))], lib)
    {
      var args := [file, Default(autr, Bool(false))];
      if !file.Str? {
        CheckArgsAt(Method.AddTrustAnchorFile, args, 0);
      } else if !(autr.Undefined? || autr.Bool?) {
        CheckArgsAt(Method.AddTrustAnchorFile, args, 1);
      }
      r := Invoke(Method.AddTrustAnchorFile, args, lib);
    }

    /** `addZone`: marks the context finalized, even when the binding then throws. */
    method AddZone(name: JsValue, zoneType: JsValue, lib: LibAnswer) returns (r: Outcome)
      modifies this
      ensures finalized
      ensures r.call.Some? <==> name.Str? && zoneType.Str?
      ensures r.call.Some? ==> r.call.value == ZoneAdd(name.s, zoneType.s)
      ensures r.result.Success? <==> r.call.Some? && lib.code == 0
      ensures r.result.Success? ==> r.result.value == Receiver
      ensures r.call.Some? && lib.code != 0 ==> r.result == Failure(LibError(lib))
      ensures !name.Str? ==> r.result == Failure(JsError(TypeError, None, TypeMessage(0, StringArg)))
      ensures name.Str? && !zoneType.Str? ==> r.result == Failure(JsError(TypeError, None, TypeMessage(1, StringArg)))
      ensures r == Invoke(Method.AddZone, [name, zoneType], lib)
    {
      finalized := true;
      var args := [name, zoneType];
      if name.Str? && !zoneType.Str? {
        CheckArgsAt(Method.AddZone, args, 1);
      }
      r := Invoke(Method.AddZone, args, lib);
    }

    /** `removeZone`: marks the context finalized. */
    method RemoveZone(name: JsValue, lib: LibAnswer) returns (r: Outcome)
      modifies this
      ensures finalized
      ensures r.call.Some? <==> name.Str?
      ensures r.call.Some? ==> r.call.value == ZoneRemove(name.s)
      ensures r.result.Success? <==> r.call.Some? && lib.code == 0
      ensures r.result.Success? ==> r.result.value == Receiver
      ensures r.call.Some? && lib.code != 0 ==> r.result == Failure(LibError(lib))
      ensures !name.Str? ==> r.result == Failure(JsError(TypeError, None, TypeMessage(0, StringArg)))
      ensures r == Invoke(Method.RemoveZone, [name], lib)
    {
      finalized := true;
      r := Invoke(Method.RemoveZone, [name], lib);
    }

    /** `addData`: marks the context finalized. */
    method AddData(data: JsValue, lib: LibAnswer) returns (r: Outcome)
      modifies this
      ensures finalized
      ensures r.call.Some? <==> data.Str?
      ensures r.call.Some? ==> r.call.value == DataAdd(data.s)
      ensures r.result.Success? <==> r.call.Some? && lib.code == 0
      ensures r.result.Success? ==> r.result.value == Receiver
      ensures r.call.Some? && lib.code != 0 ==> r.result == Failure(LibError(lib))
      ensures !data.Str? ==> r.result == Failure(JsError(TypeError, None, TypeMessage(0, StringArg)))
      ensures r == Invoke(Method.AddData, [data], lib)
    {
      finalized := true;
      r := Invoke(Method.AddData, [data], lib);
    }

    /** `removeData`: marks the context finalized. */
    method RemoveData(data: JsValue, lib: LibAnswer) returns (r: Outcome)
      modifies this
      ensures finalized
      ensures r.call.Some? <==> data.Str?
      ensures r.call.Some? ==> r.call.value == DataRemove(data.s)
      ensures r.result.Success? <==> r.call.Some? && lib.code == 0
      ensures r.result.Success? ==> r.result.value == Receiver
      ensures r.call.Some? && lib.code != 0 ==> r.result == Failure(LibError(lib))
      ensures !data.Str? ==> r.result == Failure(JsError(TypeError, None, TypeMessage(0, StringArg)))
      ensures r == Invoke(Method.RemoveData, [data], lib)
    {
      finalized := true;
      r := Invoke(Method.RemoveData, [data], lib);
    }

    /**
     * `resolve`: marks the context finalized, defaults the type and class to
     * 1 (A and IN, sections 3.2.2 and 3.2.4 of RFC 1035), and hands the
     * binding the absolute form of the name. The promise is rejected at once
     * when the binding throws, and otherwise waits for the worker.
     */
    method Resolve(qname: JsValue, qtype: JsValue, qclass: JsValue, memoryOk: bool) returns (w: NanWorker?, p: Promise)
      modifies this
      ensures finalized
      ensures var qt := Default(qtype, Num(1)); var qc := Default(qclass, Num(1));
        w != null <==> qname.Str? && qt.Num? && qc.Num? && memoryOk
      ensures w == null ==> p.Rejected?
      ensures !qname.Str? ==> p == Promise.Rejected(JsError(TypeError, None, TypeMessage(0, StringArg)))
      ensures qname.Str? && !Default(qtype, Num(1)).Num? ==> p == Promise.Rejected(JsError(TypeError, None, TypeMessage(1, NumberArg)))
      ensures var qt := Default(qtype, Num(1)); var qc := Default(qclass, Num(1));
        qname.Str? && qt.Num? && qc.Num? && !memoryOk ==> p == Promise.Rejected(JsError(Error, None, MemoryError))
      ensures w != null ==> p == Pending && fresh(w) && w.Valid() && !w.executed
      ensures qname.Str? && Default(qtype, Num(1)).Num? && !Default(qclass, Num(1)).Num? ==>
        p == Promise.Rejected(JsError(TypeError, None, TypeMessage(2, NumberArg)))
      ensures w != null ==> w.name == Some(CString(FqdnName(qname.s)))
      ensures w != null && qtype.Undefined? ==> w.rrtype == 1
      ensures w != null && qclass.Undefined? ==> w.rrclass == 1
      ensures w != null && qtype.Num? ==> ToUint32(w.rrtype) == ToUint32(qtype.n)
      ensures w != null && qclass.Num? ==> ToUint32(w.rrclass) == ToUint32(qclass.n)
    {
      finalized := true;
      var args := [Fqdn(qname), Default(qtype, Num(1)), Default(qclass, Num(1)), Function];
      var thrown;
      assert args[0].Str? <==> qname.Str?;
      assert qname.Str? ==> args[0].s == FqdnName(qname.s);
      ResolveChecks(args[0], args[1], args[2], args[3]);
      w, thrown := NanResolve(args, memoryOk);
      if w == null {
        p := Promise.Rejected(thrown.error);
      } else {
        p := Pending;
      }
    }
  }
}
