/**
 * Bytes and their upper-case hexadecimal text, as `String.format("%02X", b)`
 * renders them on Android and `b.toString(16).padStart(2, '0')` followed by
 * `toUpperCase()` renders them in the browser.
 */
module Bytes {
  import opened Base
  import opened Text

  /** An unsigned byte, as `DataView.getUint8` returns it. */
  type Byte = b: int | 0 <= b < 256

  /** A Java `byte`, signed. */
  type JByte = b: int | -128 <= b < 128

  /** `%X` on a negative `byte` prints the value plus 2^8. */
  function Unsigned(b: JByte): Byte
  {
    if b < 0 then b + 256 else b
  }

  function UnsignedAll(bs: seq<JByte>): seq<Byte>
  {
    seq(|bs|, i requires 0 <= i < |bs| => Unsigned(bs[i]))
  }

  /** The Java cast `(byte) u`, inverse of `Unsigned`. */
  function Signed(u: Byte): JByte
  {
    if u >= 128 then u - 256 else u
  }

  /** The upper-case hexadecimal digit of `d`. */
  function HexDigit(d: int): char
    requires 0 <= d < 16
  {
    if d < 10 then ('0' as int + d) as char else ('A' as int + d - 10) as char
  }

  predicate IsHexDigit(c: char)
  {
    '0' <= c <= '9' || 'A' <= c <= 'F'
  }

  /** `String.format("%02X", b)` for an unsigned value: always two digits. */
  function HexByte(b: Byte): string
  {
    [HexDigit(b / 16), HexDigit(b % 16)]
  }

  /** The bytes' two-digit renderings, concatenated. */
  function Hex(bs: seq<Byte>): (r: string)
    ensures |r| == 2 * |bs|
    ensures forall i :: 0 <= i < |r| ==> IsHexDigit(r[i])
  {
    if bs == [] then "" else HexByte(bs[0]) + Hex(bs[1..])
  }

  /** The bytes' two-digit renderings joined with ':' (`C4:DE:C4:2D`). */
  function HexWithColons(bs: seq<Byte>): string
  {
    if |bs| == 0 then ""
    else if |bs| == 1 then HexByte(bs[0])
    else HexByte(bs[0]) + ":" + HexWithColons(bs[1..])
  }

  /** The value of a hexadecimal digit of either case. */
  function DigitValue(c: char): (r: Option<nat>)
    ensures r.Some? ==> r.value < 16
  {
    if '0' <= c <= '9' then Some(c as int - '0' as int)
    else if 'A' <= c <= 'F' then Some(c as int - 'A' as int + 10)
    else if 'a' <= c <= 'f' then Some(c as int - 'a' as int + 10)
    else None
  }

  /** Reads two hexadecimal digits per byte; the inverse of `Hex`. */
  function ParseHex(s: string): Option<seq<Byte>>
    decreases |s|
  {
    if s == "" then Some([])
    else if |s| < 2 then None
    else match (DigitValue(s[0]), DigitValue(s[1]), ParseHex(s[2..]))
      case (Some(h), Some(l), Some(rest)) => Some([h * 16 + l] + rest)
      case _ => None
  }

  lemma HexAppend(a: seq<Byte>, b: seq<Byte>)
    ensures Hex(a + b) == Hex(a) + Hex(b)
  {
    if a == [] {
      assert a + b == b;
    } else {
      assert (a + b)[1..] == a[1..] + b;
      HexAppend(a[1..], b);
    }
  }

  lemma HexWithColonsSnoc(bs: seq<Byte>, b: Byte)
    ensures HexWithColons(bs + [b]) == (if bs == [] then "" else HexWithColons(bs) + ":") + HexByte(b)
  {
    if |bs| > 1 {
      assert (bs + [b])[1..] == bs[1..] + [b];
      HexWithColonsSnoc(bs[1..], b);
    } else if |bs| == 1 {
      assert (bs + [b])[1..] == [b];
    }
  }

  /** Every byte is recovered from its hexadecimal text. */
  lemma {:induction false} HexRoundTrip(bs: seq<Byte>)
    ensures ParseHex(Hex(bs)) == Some(bs)
  {
    if bs != [] {
      var b := bs[0];
      var s := Hex(bs);
      assert s == HexByte(b) + Hex(bs[1..]);
      assert s[2..] == Hex(bs[1..]);
      HexRoundTrip(bs[1..]);
      assert DigitValue(s[0]) == Some(b / 16);
      assert DigitValue(s[1]) == Some(b % 16);
      assert [b] + bs[1..] == bs;
    }
  }

  /** Distinct byte strings have distinct hexadecimal texts. */
  lemma HexInjective(a: seq<Byte>, b: seq<Byte>)
    requires Hex(a) == Hex(b)
    ensures a == b
  {
    HexRoundTrip(a);
    HexRoundTrip(b);
  }

  /** A Java byte array is recovered from its `%02X` text, negative bytes included. */
  lemma JavaHexRoundTrip(bs: seq<JByte>)
    ensures ParseHex(Hex(UnsignedAll(bs))) == Some(UnsignedAll(bs))
    ensures seq(|bs|, i requires 0 <= i < |bs| => Signed(UnsignedAll(bs)[i])) == bs
  {
    HexRoundTrip(UnsignedAll(bs));
  }

  /**
   * The colon form has 3n-1 characters, n-1 of them colons, one at every
   * third position, and deleting the colons leaves the plain hexadecimal text.
   */
  lemma {:induction false} HexWithColonsShape(bs: seq<Byte>)
    ensures |HexWithColons(bs)| == if bs == [] then 0 else 3 * |bs| - 1
    ensures forall k :: 0 <= k < |HexWithColons(bs)| ==> (HexWithColons(bs)[k] == ':' <==> k % 3 == 2)
    ensures bs != [] ==> Count(HexWithColons(bs), ':') == |bs| - 1
    ensures Remove(HexWithColons(bs), ':') == Hex(bs)
  {
    if |bs| == 1 {
      assert HexWithColons(bs) == HexByte(bs[0]);
      assert Hex(bs) == HexByte(bs[0]) + Hex([]);
      CountAbsent(HexByte(bs[0]), ':');
    } else if |bs| > 1 {
      HexWithColonsShape(bs[1..]);
      var h := HexByte(bs[0]);
      CountAbsent(h, ':');
      CountAppend(h, ":", ':');
      CountAppend(h + ":", HexWithColons(bs[1..]), ':');
      RemoveAppend(h, ":", ':');
      RemoveAppend(h + ":", HexWithColons(bs[1..]), ':');
      assert Remove(":", ':') == "";
      var t := HexWithColons(bs[1..]);
      assert HexWithColons(bs) == h + ":" + t;
      forall k | 3 <= k < |HexWithColons(bs)|
        ensures HexWithColons(bs)[k] == t[k - 3]
      {
      }
    }
  }

  /** The colon form is made of upper-case hexadecimal digits and colons only. */
  lemma {:induction false} HexWithColonsChars(bs: seq<Byte>)
    ensures forall i :: 0 <= i < |HexWithColons(bs)| ==> IsHexDigit(HexWithColons(bs)[i]) || HexWithColons(bs)[i] == ':'
  {
    if |bs| > 1 {
      HexWithColonsChars(bs[1..]);
    }
  }
}
