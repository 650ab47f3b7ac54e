/**
 * The text of one heartbeat probe. The engine writes `"msg<n>-<t>"`, where `n` is the
 * 1-based probe number and `t` the Unix time in whole seconds, both rendered the way
 * Swift string interpolation renders an `Int` (decimal, a leading '-' when negative).
 * `Decode` reads such a text back; the engine itself never parses the echo, so `Decode`
 * is the partner that pins down what `Encode` puts on the wire.
 */
module ProbePayload {
  import opened Wrappers

  datatype Probe = Probe(seqNo: int, timestamp: int)

  predicate IsDigit(c: char) {
    '0' <= c <= '9'
  }

  predicate AllDigits(s: string) {
    forall k :: 0 <= k < |s| ==> IsDigit(s[k])
  }

  function DigitChar(d: nat): (c: char)
    requires d < 10
    ensures IsDigit(c) && DigitValue(c) == d
  {
    (('0' as int) + d) as char
  }

  function DigitValue(c: char): nat
    requires IsDigit(c)
  {
    (c as int) - ('0' as int)
  }

  /** The number a run of decimal digits denotes (0 for the empty run). */
  function DigitsValue(s: string): nat
    requires AllDigits(s)
  {
    if s == [] then 0 else DigitsValue(s[..|s| - 1]) * 10 + DigitValue(s[|s| - 1])
  }

  /** Decimal rendering of a natural number, most significant digit first. */
  function NatToDecimal(n: nat): (s: string)
    ensures |s| > 0 && AllDigits(s) && DigitsValue(s) == n
    ensures s[0] == '0' <==> n == 0
    ensures n == 0 ==> s == "0"
  {
    if n < 10 then [DigitChar(n)]
    else
      var prefix := NatToDecimal(n / 10);
      var s := prefix + [DigitChar(n % 10)];
      assert s[..|s| - 1] == prefix;
      s
  }

  /** Swift's interpolation of an `Int`. */
  function IntToDecimal(i: int): string {
    if i < 0 then "-" + NatToDecimal(-i) else NatToDecimal(i)
  }

  function ParseNat(s: string): Option<nat> {
    if s != [] && AllDigits(s) then Some(DigitsValue(s)) else None
  }

  function ParseInt(s: string): Option<int> {
    if |s| > 0 && s[0] == '-' then
      match ParseNat(s[1..])
      case Some(n) => Some(-(n as int))
      case None => None
    else ParseNat(s)
  }

  /** Splits at the first '-': the text before it and the text after it. */
  function SplitAtDash(s: string): Option<(string, string)> {
    if s == [] then None
    else if s[0] == '-' then Some(([], s[1..]))
    else
      match SplitAtDash(s[1..])
      case None => None
      case Some((a, b)) => Some(([s[0]] + a, b))
  }

  /** The payload `sendHeartBeatRequest` writes for a probe. */
  function Encode(p: Probe): string {
    "msg" + IntToDecimal(p.seqNo) + "-" + IntToDecimal(p.timestamp)
  }

  function Decode(s: string): Option<Probe> {
    if |s| < 3 || s[..3] != "msg" then None
    else
      match SplitAtDash(s[3..])
      case None => None
      case Some((a, b)) =>
        match (ParseNat(a), ParseInt(b))
        case (Some(n), Some(t)) => Some(Probe(n, t))
        case _ => None
  }

  lemma IntToDecimalRoundTrip(i: int)
    ensures ParseInt(IntToDecimal(i)) == Some(i)
  {
  }

  lemma {:induction false} SplitAtFirstDash(a: string, b: string)
    requires AllDigits(a)
    ensures SplitAtDash(a + "-" + b) == Some((a, b))
  {
    if a == [] {
      assert a + "-" + b == "-" + b;
      assert ("-" + b)[1..] == b;
    } else {
      SplitAtFirstDash(a[1..], b);
      assert (a + "-" + b)[1..] == a[1..] + "-" + b;
      assert [a[0]] + a[1..] == a;
    }
  }

  /** A probe with a non-negative number reads back as itself. */
  lemma DecodeEncode(p: Probe)
    requires p.seqNo >= 0
    ensures Decode(Encode(p)) == Some(p)
  {
    var a := NatToDecimal(p.seqNo);
    var b := IntToDecimal(p.timestamp);
    var s := Encode(p);
    assert s == "msg" + (a + "-" + b);
    assert s[..3] == "msg";
    assert s[3..] == a + "-" + b;
    SplitAtFirstDash(a, b);
    IntToDecimalRoundTrip(p.timestamp);
  }
}
