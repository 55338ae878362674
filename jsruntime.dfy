/**
 * The JavaScript built-ins the probe relies on, stated on the values it uses
 * them for: Uint8Array elements, `String.fromCharCode`, `Number.prototype.toString`.
 */
module JsRuntime {

  /** An element of a Uint8Array. */
  type byte = x: int | 0 <= x < 256

  /** A JavaScript value that may be missing: `undefined`, `null`, or present. */
  datatype JsValue<T> = Undefined | Null | Value(value: T)

  /** `String.fromCharCode(...bytes)`: one code unit per byte, whose code is that byte. */
  function FromCharCodes(bytes: seq<byte>): (s: string)
    ensures |s| == |bytes|
    ensures forall i :: 0 <= i < |s| ==> s[i] as int == bytes[i]
  {
    if bytes == [] then []
    else FromCharCodes(bytes[..|bytes| - 1]) + [bytes[|bytes| - 1] as char]
  }

  /** `Uint8Array.from([...s].map(ch => ch.charCodeAt(0)))`: each code reduced modulo 256. */
  function CharCodes(s: string): (bytes: seq<byte>)
    ensures |bytes| == |s|
    ensures forall i :: 0 <= i < |s| ==> bytes[i] == (s[i] as int) % 256
  {
    if s == [] then []
    else CharCodes(s[..|s| - 1]) + [(s[|s| - 1] as int) % 256]
  }

  /** Turning bytes into a string and back gives the same bytes. */
  lemma CharCodesInvertsFromCharCodes(bytes: seq<byte>)
    ensures CharCodes(FromCharCodes(bytes)) == bytes
  {
    var back := CharCodes(FromCharCodes(bytes));
    assert forall i :: 0 <= i < |bytes| ==> back[i] == bytes[i];
  }

  /** The string of a reply is empty exactly when the reply has no bytes. */
  lemma FromCharCodesEmpty(bytes: seq<byte>)
    ensures FromCharCodes(bytes) == "" <==> bytes == []
  {
    assert |FromCharCodes(bytes)| == |bytes|;
  }

  predicate IsDigit(c: char) { '0' as int <= c as int <= '9' as int }

  function DigitChar(d: int): (c: char)
    requires 0 <= d < 10
    ensures IsDigit(c) && c as int - '0' as int == d
  {
    (d + '0' as int) as char
  }

  /** `n.toString()` for a non-negative integer: decimal digits, most significant first, no leading zero. */
  function NatToString(n: nat): (s: string)
    ensures |s| >= 1
    ensures forall i :: 0 <= i < |s| ==> IsDigit(s[i])
    ensures n > 0 ==> s[0] != '0'
    ensures n < 10 <==> |s| == 1
  {
    if n < 10 then [DigitChar(n)] else NatToString(n / 10) + [DigitChar(n % 10)]
  }

  /** The number a string of decimal digits denotes. */
  function DecimalValue(s: string): nat
    requires forall i :: 0 <= i < |s| ==> IsDigit(s[i])
  {
    if s == [] then 0
    else
      assert IsDigit(s[|s| - 1]);
      DecimalValue(s[..|s| - 1]) * 10 + (s[|s| - 1] as int - '0' as int)
  }

  /** Reading back the decimal string of `n` gives `n`. */
  lemma {:induction false} DecimalRoundTrip(n: nat)
    ensures DecimalValue(NatToString(n)) == n
  {
    var s := NatToString(n);
    if n >= 10 {
      DecimalRoundTrip(n / 10);
      assert s[..|s| - 1] == NatToString(n / 10);
    }
  }

  /** Distinct counters are rendered as distinct strings. */
  lemma NatToStringInjective(a: nat, b: nat)
    ensures NatToString(a) == NatToString(b) ==> a == b
  {
    DecimalRoundTrip(a);
    DecimalRoundTrip(b);
  }
}
