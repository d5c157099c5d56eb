/**
 * The pure helpers of lib/unbound.js: option-name and domain-name
 * normalisation, and the conversion between typed option values and the
 * string form libunbound stores.
 */
module OptionCodec {

  import opened Wrappers
  import opened JsValues
  import opened Decimal

  /** 2^53: integers below it are exact in a JavaScript number. */
  const TwoTo53: int := 0x20_0000_0000_0000

  /** The longest digit string `isNumber` accepts. */
  const MaxNumberDigits: nat := 15

  /** `colon` on a string: libunbound option names end in ':'. */
  function ColonName(opt: string): (r: string)
    ensures opt <= r && |r| <= |opt| + 1
    ensures opt != "" ==> r[|r| - 1] == ':'
    ensures r == opt <==> opt == "" || opt[|opt| - 1] == ':'
  {
    if |opt| == 0 then opt
    else if opt[|opt| - 1] != ':' then opt + ":"
    else opt
  }

  /** `colon`: anything that is not a string passes through untouched. */
  function Colon(opt: JsValue): (r: JsValue)
    ensures r.Str? <==> opt.Str?
    ensures !opt.Str? ==> r == opt
  {
    if opt.Str? then Str(ColonName(opt.s)) else opt
  }

  lemma ColonIdempotent(opt: JsValue)
    ensures Colon(Colon(opt)) == Colon(opt)
  {
  }

  /**
   * `fqdn` on a string: the absolute form of a domain name, ending in the
   * dot that stands for the root (section 3.1 of RFC 1034); the empty name
   * is the root itself.
   */
  function FqdnName(name: string): (r: string)
    ensures |r| >= 1 && r[|r| - 1] == '.'
    ensures name == "" ==> r == "."
    ensures name != "" ==> name <= r && |r| <= |name| + 1
    ensures name != "" ==> (r == name <==> name[|name| - 1] == '.')
  {
    if |name| == 0 then "."
    else if name[|name| - 1] != '.' then name + "."
    else name
  }

  /** `fqdn`: anything that is not a string passes through untouched. */
  function Fqdn(name: JsValue): (r: JsValue)
    ensures r.Str? <==> name.Str?
    ensures !name.Str? ==> r == name
  {
    if name.Str? then Str(FqdnName(name.s)) else name
  }

  lemma FqdnIdempotent(name: JsValue)
    ensures Fqdn(Fqdn(name)) == Fqdn(name)
  {
  }

  /**
   * `isNumber`: a string of one to fifteen ASCII digits (`/^[0-9]{1,15}$/`);
   * what it accepts has a value below 10^15.
   */
  function IsNumber(v: JsValue): (ok: bool)
    ensures ok <==> v.Str? && 1 <= |v.s| <= MaxNumberDigits && AllDigits(v.s)
    ensures ok ==> DigitsToNat(v.s) < Pow10(MaxNumberDigits)
  {
    if v.Str? && 1 <= |v.s| <= MaxNumberDigits && AllDigits(v.s) then
      PowMonotone(|v.s|, MaxNumberDigits);
      true
    else
      false
  }

  /** A digit string `isNumber` accepts reads as a number exactly representable in JavaScript. */
  lemma IsNumberExact(v: JsValue)
    requires IsNumber(v)
    ensures DigitsToNat(v.s) < Pow10(MaxNumberDigits) < TwoTo53
  {
    assert Pow10(15) == 1_000_000_000_000_000;
  }

  lemma {:induction false} PowMonotone(i: nat, j: nat)
    requires i <= j
    ensures Pow10(i) <= Pow10(j)
    decreases j
  {
    if i < j {
      PowMonotone(i, j - 1);
    }
  }

  /**
   * What `setOption` hands the native layer as the value: null and undefined
   * become '', booleans 'yes' or 'no', numbers their base-10 spelling;
   * strings and anything else pass unchanged.
   */
  function EncodeValue(v: JsValue): (r: JsValue)
    ensures r.Str? <==> IsNullish(v) || v.Bool? || v.Num? || v.Str?
    ensures v.Str? ==> r == v
    ensures IsNullish(v) ==> r == Str("")
    ensures v.Bool? ==> r == Str(if v.b then "yes" else "no")
    ensures v.Num? && v.n >= 0 ==> r.Str? && AllDigits(r.s)
    ensures v.Num? ==> r.Str? && ParseInt(r.s) == Some(v.n) && (v.n < 0 <==> r.s[0] == '-')
    ensures !(IsNullish(v) || v.Bool? || v.Num?) ==> r == v
  {
    if IsNullish(v) then Str("")
    else if v.Bool? then (if v.b then Str("yes") else Str("no"))
    else if v.Num? then
      IntToDecimalRoundTrip(v.n);
      Str(IntToDecimal(v.n))
    else v
  }

  /**
   * What `getOption` makes of the native layer's answer: null and '' become
   * null, 'yes' true, 'no' false, a digit string `isNumber` accepts its
   * integer value; anything else is returned as it is.
   */
  function DecodeValue(v: JsValue): (r: JsValue)
    ensures IsNullish(v) || v == Str("") ==> r == Null
    ensures !v.Str? && !IsNullish(v) ==> r == v
    ensures v.Str? && r.Num? ==> IsNumber(v) && 0 <= r.n < Pow10(MaxNumberDigits)
    ensures v.Str? && r.Bool? ==> v == Str(if r.b then "yes" else "no")
    ensures r.Str? ==> r == v && v.s !in {"", "yes", "no"} && !IsNumber(v)
    ensures v == Str("yes") ==> r == Bool(true)
    ensures v == Str("no") ==> r == Bool(false)
    ensures IsNumber(v) ==> r == Num(DigitsToNat(v.s))
    ensures v.Str? && v.s !in {"", "yes", "no"} && !IsNumber(v) ==> r == v
  {
    if IsNullish(v) then Null
    else if v == Str("") then Null
    else if v == Str("yes") then Bool(true)
    else if v == Str("no") then Bool(false)
    else if IsNumber(v) then Num(DigitsToNat(v.s))
    else v
  }

  /** Booleans and null survive a set followed by a get; undefined comes back as null. */
  lemma RoundTripScalar(v: JsValue)
    requires IsNullish(v) || v.Bool?
    ensures DecodeValue(EncodeValue(v)) == (if v.Bool? then v else Null)
  {
  }

  /**
   * A number survives a set followed by a get exactly when it is a
   * non-negative integer of at most fifteen digits; negative numbers and
   * larger ones come back as strings.
   */
  lemma RoundTripNumber(n: int)
    ensures DecodeValue(EncodeValue(Num(n))) == Num(n) <==> 0 <= n < Pow10(MaxNumberDigits)
    ensures n < 0 ==> DecodeValue(EncodeValue(Num(n))) == Str(IntToDecimal(n))
  {
    var e := EncodeValue(Num(n));
    if n >= 0 {
      DecimalLength(n, MaxNumberDigits);
      DigitsToNatOfDecimal(n);
      assert e.s != "yes" && e.s != "no" by {
        assert IsDigit(e.s[0]);
      }
    } else {
      assert e.s[0] == '-';
      assert e.s != "yes" && e.s != "no";
    }
  }

  /**
   * A string survives a set followed by a get exactly when it is none of
   * '', 'yes', 'no' and not a digit string `isNumber` accepts.
   */
  lemma RoundTripString(s: string)
    ensures DecodeValue(EncodeValue(Str(s))) == Str(s) <==> s !in {"", "yes", "no"} && !IsNumber(Str(s))
  {
  }

  /**
   * Writing back what was read leaves libunbound's string unchanged,
   * except a number spelt with a superfluous leading zero, which is
   * written back without it.
   */
  lemma EncodeDecodeString(s: string)
    ensures EncodeValue(DecodeValue(Str(s))) == Str(s) <==> !(IsNumber(Str(s)) && s[0] == '0' && |s| > 1)
  {
    if IsNumber(Str(s)) && s != "yes" && s != "no" {
      var n := DigitsToNat(s);
      if s[0] == '0' && |s| > 1 {
        assert NatToDecimal(n) != s by {
          if n == 0 {
            assert NatToDecimal(0) == "0";
          } else {
            assert NatToDecimal(n)[0] != '0';
          }
        }
      } else {
        DecimalOfDigitsToNat(s);
      }
    }
  }
}
