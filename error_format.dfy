/**
 * The error message both native bindings throw when libunbound returns a
 * non-zero code: `libunbound: <message> (<code>)`, written into a
 * fixed-size buffer.
 */
module ErrorFormat {

  import opened Wrappers
  import opened Decimal

  /** A C `int`. */
  type Int32 = x: int | -0x8000_0000 <= x < 0x8000_0000

  const Prefix: string := "libunbound: "
  const UnknownError: string := "unknown error"

  /** The longest library message shown as it is. */
  const MaxLibMessage: nat := 256

  /**
   * NODE_UB_MAX_ERR and NU_ERROR_SIZE: the prefix, the longest message,
   * " (", the longest `int`, ")" and the terminating NUL.
   */
  const MaxErr: nat := 12 + 256 + 2 + 11 + 1 + 1

  /** The library's message, or "unknown error" when it is missing or longer than 256 characters. */
  function ShownMessage(msg: Option<string>): (m: string)
    ensures |m| <= MaxLibMessage
    ensures msg.Some? && |msg.value| <= MaxLibMessage ==> m == msg.value
    ensures msg.None? || |msg.value| > MaxLibMessage ==> m == UnknownError
  {
    if msg.None? || |msg.value| > MaxLibMessage then UnknownError else msg.value
  }

  /**
   * `node_ub_strerror`: `msg` is what `ub_strerror(code)` returned. The
   * message, with its NUL, always fits in MaxErr bytes, whatever the code,
   * and always starts with the "libunbound:" prefix.
   */
  function FormatMessage(msg: Option<string>, code: Int32): (r: string)
    ensures |r| + 1 <= MaxErr
    ensures Prefix <= r
    ensures r[|r| - 1] == ')'
  {
    Int32DecimalLength(code);
    Prefix + ShownMessage(msg) + " (" + IntToDecimal(code) + ")"
  }

  /**
   * `nu_strerror`, which tests for NULL and for length in two steps; it
   * formats exactly what `node_ub_strerror` does.
   */
  function NuStrerror(msg: Option<string>, code: Int32): (r: string)
    ensures r == FormatMessage(msg, code)
  {
    var m := if msg.None? then UnknownError else msg.value;
    var m' := if |m| > MaxLibMessage then UnknownError else m;
    Prefix + m' + " (" + IntToDecimal(code) + ")"
  }

  /** The last position of `c` in `s`, if any. */
  function LastIndexOf(s: string, c: char): (r: Option<nat>)
    ensures r.None? ==> forall i :: 0 <= i < |s| ==> s[i] != c
    ensures r.Some? ==> r.value < |s| && s[r.value] == c
    ensures r.Some? ==> forall i :: r.value < i < |s| ==> s[i] != c
  {
    if s == [] then None
    else if s[|s| - 1] == c then Some(|s| - 1)
    else LastIndexOf(s[..|s| - 1], c)
  }

  /**
   * Reads a formatted message back into the text shown and the code: the
   * code is what follows the last '(' before the closing ')'.
   */
  function ParseMessage(r: string): Option<(string, int)> {
    if |r| < |Prefix| + 1 || r[..|Prefix|] != Prefix || r[|r| - 1] != ')' then None
    else
      var body := r[|Prefix|..|r| - 1];
      match LastIndexOf(body, '(')
      case None => None
      case Some(k) =>
        if k == 0 || body[k - 1] != ' ' then None
        else
          match ParseInt(body[k + 1..])
          case None => None
          case Some(code) => Some((body[..k - 1], code))
  }

  /** A character that does not occur after its last occurrence is found there. */
  lemma {:induction false} LastIndexOfSplit(a: string, c: char, d: string)
    requires forall i :: 0 <= i < |d| ==> d[i] != c
    ensures LastIndexOf(a + [c] + d, c) == Some(|a|)
    decreases |d|
  {
    var s := a + [c] + d;
    if d != [] {
      assert s[|s| - 1] == d[|d| - 1];
      assert s[..|s| - 1] == a + [c] + d[..|d| - 1];
      LastIndexOfSplit(a, c, d[..|d| - 1]);
    }
  }

  /** No spelling of an integer contains '('. */
  lemma NoParenInDecimal(n: int)
    ensures forall i :: 0 <= i < |IntToDecimal(n)| ==> IntToDecimal(n)[i] != '('
  {
    var d := IntToDecimal(n);
    forall i | 0 <= i < |d| ensures d[i] != '(' {
      if n < 0 && i > 0 {
        assert d[i] == d[1..][i - 1];
      }
    }
  }

  /** Parsing a message built from a text and a spelling without '(' gives both back. */
  lemma ParseBuilt(m: string, d: string, code: int)
    requires forall i :: 0 <= i < |d| ==> d[i] != '('
    requires ParseInt(d) == Some(code)
    ensures ParseMessage(Prefix + m + " (" + d + ")") == Some((m, code))
  {
    var r := Prefix + m + " (" + d + ")";
    var body := r[|Prefix|..|r| - 1];
    assert r[..|Prefix|] == Prefix;
    assert body == (m + " ") + ['('] + d;
    LastIndexOfSplit(m + " ", '(', d);
    var k := |m| + 1;
    assert body[k - 1] == ' ';
    assert body[k + 1..] == d;
    assert body[..k - 1] == m;
  }

  /** The formatted message determines both the text shown and the code. */
  lemma ParseFormatMessage(msg: Option<string>, code: Int32)
    ensures ParseMessage(FormatMessage(msg, code)) == Some((ShownMessage(msg), code))
  {
    NoParenInDecimal(code);
    IntToDecimalRoundTrip(code);
    ParseBuilt(ShownMessage(msg), IntToDecimal(code), code);
  }
}
