/**
 * How both native bindings turn a `struct ub_result` into the 14-slot
 * positional array handed to JavaScript.
 */
module ResultConversion {

  import opened Wrappers
  import opened JsValues
  import opened Libunbound

  /** The number of slots in the result array. */
  const Slots: nat := 14

  /**
   * When the answer packet becomes null: node_unbound.c tests `answer_len`,
   * node_unbound.cc tests the `answer_packet` pointer.
   */
  datatype PacketRule = ByLength | ByPointer

  /** The rdata entries before the first NULL: what the `while (data[i] != NULL)` walk visits. */
  function DataPrefix(d: seq<Option<Bytes>>): (r: seq<Bytes>)
    ensures |r| <= |d|
    ensures forall i :: 0 <= i < |r| ==> d[i] == Some(r[i])
    ensures |r| < |d| ==> d[|r|].None?
  {
    if d == [] || d[0].None? then [] else [d[0].value] + DataPrefix(d[1..])
  }

  function Buffers(bs: seq<Bytes>): (r: seq<JsValue>)
    ensures |r| == |bs|
    ensures forall i :: 0 <= i < |r| ==> r[i] == Buffer(bs[i])
  {
    seq(|bs|, i requires 0 <= i < |bs| => Buffer(bs[i]))
  }

  /**
   * Slot 3: one buffer per rdata entry before the first NULL, each a copy of
   * that entry; empty when the data or the len array is NULL.
   */
  function DataArray(data: Option<seq<Option<Bytes>>>, hasLen: bool): (r: JsValue)
    ensures r.Array?
    ensures data.None? || !hasLen ==> r.items == []
    ensures data.Some? && hasLen ==>
      && |r.items| <= |data.value|
      && (forall i :: 0 <= i < |r.items| ==> r.items[i].Buffer? && data.value[i] == Some(r.items[i].bytes))
      && (|r.items| < |data.value| ==> data.value[|r.items|].None?)
  {
    if data.Some? && hasLen then Array(Buffers(DataPrefix(data.value))) else Array([])
  }

  /** A C string that may be NULL becomes a string or null. */
  function NullableString(s: Option<string>): (r: JsValue)
    ensures r.Null? <==> s.None?
    ensures s.Some? ==> r == Str(s.value)
  {
    if s.Some? then Str(s.value) else Null
  }

  /** Slot 6: the answer packet, or null. */
  function PacketSlot(r: UbResult, rule: PacketRule): (v: JsValue)
    ensures rule == ByLength ==> (v.Null? <==> AnswerLen(r) == 0)
    ensures rule == ByPointer ==> (v.Null? <==> r.answerPacket.None?)
    ensures !v.Null? ==> r.answerPacket.Some? && v == Buffer(r.answerPacket.value)
  {
    match rule
    case ByLength => if AnswerLen(r) != 0 then Buffer(r.answerPacket.value) else Null
    case ByPointer => if r.answerPacket.Some? then Buffer(r.answerPacket.value) else Null
  }

  /** Slot 12: the library's flag where the structure has one, false before libunbound 1.8. */
  function RateLimitedSlot(r: UbResult, v: Version): (b: bool)
    ensures !HasRateLimitField(v) ==> !b
    ensures HasRateLimitField(v) ==> b == r.wasRatelimited
  {
    HasRateLimitField(v) && r.wasRatelimited
  }

  /**
   * The fourteen slots both bindings fill on success, in order: qname,
   * qtype, qclass, data, canonname, rcode, packet, havedata, nxdomain,
   * secure, bogus, why_bogus, was_ratelimited, ttl; `data` is the slot the
   * walk over `r->data` produced.
   */
  function ResultSlots(r: UbResult, v: Version, rule: PacketRule, data: JsValue): (items: seq<JsValue>) {
    [ NullableString(r.qname),
      Num(ToUint32(r.qtype)),
      Num(ToUint32(r.qclass)),
      data,
      NullableString(r.canonname),
      Num(ToUint32(r.rcode)),
      PacketSlot(r, rule),
      Bool(r.havedata),
      Bool(r.nxdomain),
      Bool(r.secure),
      Bool(r.bogus),
      NullableString(r.whyBogus),
      Bool(RateLimitedSlot(r, v)),
      Num(ToUint32(r.ttl)) ]
  }

  /**
   * The array both bindings hand to JavaScript on success. Every integer
   * slot went through a `uint32_t` conversion, the strings are null or
   * strings, the data slot is an array, and the flags are booleans.
   */
  function ResultArray(r: UbResult, v: Version, rule: PacketRule): (items: seq<JsValue>)
    ensures |items| == Slots
    ensures forall i :: i in [1, 2, 5, 13] ==> items[i].Num? && 0 <= items[i].n < TwoTo32
    ensures forall i :: i in [0, 4, 11] ==> items[i].Null? || items[i].Str?
    ensures forall i :: i in [7, 8, 9, 10, 12] ==> items[i].Bool?
    ensures items[3].Array? && (items[6].Null? || items[6].Buffer?)
  {
    ResultSlots(r, v, rule, DataArray(r.data, r.hasLen))
  }

  /**
   * The two bindings' arrays differ in one case alone: a non-NULL packet of
   * length 0, which node_unbound.c reports as null and node_unbound.cc as
   * an empty buffer.
   */
  lemma PacketRulesDiffer(r: UbResult, v: Version)
    ensures ResultArray(r, v, ByLength) != ResultArray(r, v, ByPointer) <==> r.answerPacket == Some([])
    ensures r.answerPacket == Some([]) ==> ResultArray(r, v, ByLength)[6] == Null && ResultArray(r, v, ByPointer)[6] == Buffer([])
  {
    var a, b := ResultArray(r, v, ByLength), ResultArray(r, v, ByPointer);
    if r.answerPacket == Some([]) {
      assert a[6] != b[6];
    } else {
      assert a[6] == b[6];
      assert a == b;
    }
  }

  /**
   * The walk over `r->data`: copies one buffer per entry until the first
   * NULL entry (or the end of the array); nothing when the data or the len
   * array is NULL.
   */
  method CopyDataItems(data: Option<seq<Option<Bytes>>>, hasLen: bool) returns (items: seq<JsValue>)
    ensures Array(items) == DataArray(data, hasLen)
  {
    items := [];
    if data.Some? && hasLen {
      var d := data.value;
      var i := 0;
      while i < |d| && d[i].Some?
        invariant 0 <= i <= |d|
        invariant |items| == i
        invariant forall j :: 0 <= j < i ==> d[j].Some? && items[j] == Buffer(d[j].value)
      {
        items := items + [Buffer(d[i].value)];
        i := i + 1;
      }
      var prefix := DataPrefix(d);
      assert i == |prefix|;
      assert items == Buffers(prefix);
    }
  }
}
