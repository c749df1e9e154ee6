/** TraceOutputStream: records every write as one line of lower-case hexadecimal, two
    digits per byte, high nibble first. Java bytes are signed. */
module Trace {
  import opened JavaLang

  newtype int8 = x: int | -0x80 <= x < 0x80
  newtype int32 = x: int | -0x8000_0000 <= x < 0x8000_0000

  const CODE: string := "0123456789abcdef"

  /** `(b >> 4) & 15` on a byte promoted to int: an arithmetic shift (division rounding
      down) followed by keeping the low four bits (a non-negative remainder). */
  function HighNibble(b: int8): (n: nat)
    ensures n < 16
  {
    ((b as int) / 16) % 16
  }

  /** `b & 15`. */
  function LowNibble(b: int8): (n: nat)
    ensures n < 16
  {
    (b as int) % 16
  }

  /** The byte as the unsigned value with the same eight bits. */
  function Unsigned(b: int8): (u: nat)
    ensures u < 256
    ensures b >= 0 ==> u == b as int
    ensures b < 0 ==> u == b as int + 256
  {
    (b as int) % 256
  }

  /** The two characters `toHex(r, b)` appends. */
  function ByteHex(b: int8): string {
    [CODE[HighNibble(b)], CODE[LowNibble(b)]]
  }

  /** The hex of a byte sequence: the two-character codes of its bytes, in order. */
  function HexEncode(bytes: seq<int8>): (s: string)
    ensures |s| == 2 * |bytes|
  {
    if |bytes| == 0 then [] else HexEncode(bytes[..|bytes| - 1]) + ByteHex(bytes[|bytes| - 1])
  }

  /** The nibbles of a signed byte are the two hex digits of its unsigned value: a
      negative byte is printed as its value plus 256. */
  lemma NibblesOfUnsigned(b: int8)
    ensures HighNibble(b) == Unsigned(b) / 16
    ensures LowNibble(b) == Unsigned(b) % 16
    ensures 16 * HighNibble(b) + LowNibble(b) == Unsigned(b)
  {
    var x := b as int;
    if x < 0 {
      var q := x / 16;
      assert x == 16 * q + x % 16;
      assert -8 <= q < 0;
      assert q % 16 == q + 16;
      assert Unsigned(b) == x + 256 == 16 * (q + 16) + x % 16;
    }
  }

  /** The code of a byte is the code of its unsigned value. */
  lemma ByteHexUnsigned(b: int8)
    ensures ByteHex(b) == [CODE[Unsigned(b) / 16], CODE[Unsigned(b) % 16]]
  {
    NibblesOfUnsigned(b);
  }

  /** Characters 2i and 2i+1 of the hex are the high and the low digit of byte i. */
  lemma {:induction false} HexEncodeAt(bytes: seq<int8>, i: int)
    requires 0 <= i < |bytes|
    ensures HexEncode(bytes)[2 * i] == CODE[HighNibble(bytes[i])]
    ensures HexEncode(bytes)[2 * i + 1] == CODE[LowNibble(bytes[i])]
  {
    var n := |bytes| - 1;
    assert HexEncode(bytes) == HexEncode(bytes[..n]) + ByteHex(bytes[n]);
    if i < n {
      HexEncodeAt(bytes[..n], i);
      assert bytes[..n][i] == bytes[i];
    }
  }

  /** Every character of the hex is one of the sixteen lower-case digits. */
  lemma HexEncodeAlphabet(bytes: seq<int8>)
    ensures forall j :: 0 <= j < |HexEncode(bytes)| ==> HexEncode(bytes)[j] in CODE
  {
    forall j | 0 <= j < |HexEncode(bytes)|
      ensures HexEncode(bytes)[j] in CODE
    {
      HexEncodeAt(bytes, j / 2);
      assert j == 2 * (j / 2) || j == 2 * (j / 2) + 1;
    }
  }

  /** The position of a digit in CODE. */
  function DigitValue(c: char): (v: Option<nat>)
    ensures v.Some? ==> v.value < 16 && CODE[v.value] == c
    ensures v.None? ==> c !in CODE
  {
    if '0' <= c <= '9' then Some(c as int - '0' as int)
    else if 'a' <= c <= 'f' then Some(c as int - 'a' as int + 10)
    else None
  }

  /** Every digit's position is read back by DigitValue. */
  lemma DigitValueOfCode(i: nat)
    requires i < 16
    ensures DigitValue(CODE[i]) == Some(i)
  {
  }

  /** A value below 256 split into its two hex digits. */
  lemma SplitHexDigits(h: nat, l: nat)
    requires h < 16 && l < 16
    ensures (16 * h + l) / 16 == h && (16 * h + l) % 16 == l
  {
  }

  /** The byte whose two-character code is `hi lo`, when both are digits. */
  function DecodeByte(hi: char, lo: char): (b: Option<int8>)
    ensures b.Some? ==> ByteHex(b.value) == [hi, lo]
  {
    match (DigitValue(hi), DigitValue(lo))
    case (Some(h), Some(l)) =>
      var u: int := 16 * h + l;
      var b: int8 := if u < 128 then u as int8 else (u - 256) as int8;
      assert Unsigned(b) == u;
      NibblesOfUnsigned(b);
      SplitHexDigits(h, l);
      assert HighNibble(b) == h && LowNibble(b) == l;
      Some(b)
    case _ => None
  }

  /** The inverse of HexEncode on strings of even length over CODE. */
  function HexDecode(s: string): (bytes: Option<seq<int8>>)
    ensures bytes.Some? ==> HexEncode(bytes.value) == s
    decreases |s|
  {
    if |s| == 0 then Some([])
    else if |s| == 1 then None
    else
      match HexDecode(s[..|s| - 2])
      case None => None
      case Some(prefix) =>
        match DecodeByte(s[|s| - 2], s[|s| - 1])
        case None => None
        case Some(b) =>
          assert (prefix + [b])[..|prefix|] == prefix;
          assert s == s[..|s| - 2] + [s[|s| - 2], s[|s| - 1]];
          Some(prefix + [b])
  }

  /** Distinct bytes have distinct codes. */
  lemma ByteHexInjective(a: int8, b: int8)
    requires ByteHex(a) == ByteHex(b)
    ensures a == b
  {
    NibblesOfUnsigned(a);
    NibblesOfUnsigned(b);
    assert CODE[HighNibble(a)] == CODE[HighNibble(b)] && CODE[LowNibble(a)] == CODE[LowNibble(b)];
    DigitValueOfCode(HighNibble(a));
    DigitValueOfCode(HighNibble(b));
    DigitValueOfCode(LowNibble(a));
    DigitValueOfCode(LowNibble(b));
    assert Unsigned(a) == Unsigned(b);
  }

  /** Decoding a byte's code gives the byte back. */
  lemma DecodeByteHex(b: int8)
    ensures DecodeByte(ByteHex(b)[0], ByteHex(b)[1]) == Some(b)
  {
    DigitValueOfCode(HighNibble(b));
    DigitValueOfCode(LowNibble(b));
    var d := DecodeByte(ByteHex(b)[0], ByteHex(b)[1]);
    ByteHexInjective(d.value, b);
  }

  /** The hex of a byte sequence decodes back to the sequence. */
  lemma {:induction false} HexRoundTrip(bytes: seq<int8>)
    ensures HexDecode(HexEncode(bytes)) == Some(bytes)
  {
    if |bytes| > 0 {
      var n := |bytes| - 1;
      var s := HexEncode(bytes);
      assert s == HexEncode(bytes[..n]) + ByteHex(bytes[n]);
      assert s[..|s| - 2] == HexEncode(bytes[..n]);
      assert s[|s| - 2] == ByteHex(bytes[n])[0] && s[|s| - 1] == ByteHex(bytes[n])[1];
      HexRoundTrip(bytes[..n]);
      DecodeByteHex(bytes[n]);
      assert bytes[..n] + [bytes[n]] == bytes;
    }
  }

  /** Two's-complement wrap-around of a Java int expression. */
  function Wrap32(x: int): (r: int32)
    ensures (r as int - x) % 0x1_0000_0000 == 0
  {
    var u := x % 0x1_0000_0000;
    if u < 0x8000_0000 then u as int32 else (u - 0x1_0000_0000) as int32
  }

  /** The cast `(byte) b`: the low eight bits, read as a signed byte. */
  function ToByte(x: int32): (b: int8)
    ensures Unsigned(b) == (x as int) % 256
    ensures -0x80 <= x as int < 0x80 ==> b as int == x as int
  {
    var u := (x as int) % 256;
    if u < 128 then u as int8 else (u - 256) as int8
  }

  /** `write(int)` looks only at the low eight bits of its argument. */
  lemma ToByteLowBits(x: int32, y: int32)
    requires (x as int) % 256 == (y as int) % 256
    ensures ToByte(x) == ToByte(y)
  {
  }

  /** What toHex(buf, start, len) returns or throws: `new StringBuilder(len*2)` rejects a
      capacity that is negative as a Java int; then each `buf[start+i]` must lie inside
      the array. */
  function ToHexResult(buf: seq<int8>, start: int32, len: int32): (r: Result<string, Exception>)
    ensures r.Success? ==>
              if len <= 0 then r.value == []
              else 0 <= start as int && start as int + len as int <= |buf| &&
                   r.value == HexEncode(buf[start as int..start as int + len as int])
    ensures 0 <= len as int < 0x4000_0000 && 0 <= start as int && start as int + len as int <= |buf| ==>
              r.Success? && |r.value| == 2 * len as int
    ensures r.Failure? ==> r.error.kind in {NegativeArraySizeException, ArrayIndexOutOfBoundsException}
  {
    if Wrap32(2 * len as int) < 0 then Failure(Exception(NegativeArraySizeException, "", None))
    else if len <= 0 then Success([])
    else if start < 0 || start as int + len as int > |buf| then Failure(Exception(ArrayIndexOutOfBoundsException, "", None))
    else Success(HexEncode(buf[start as int..start as int + len as int]))
  }

  /** The part of java.lang.StringBuilder the encoder uses. */
  class StringBuilder {
    var content: string

    constructor (capacity: int32)
      requires capacity >= 0
      ensures content == []
    {
      content := [];
    }

    method Append(c: char)
      modifies this
      ensures content == old(content) + [c]
    {
      content := content + [c];
    }
  }

  /** toHex(r, b): appends the byte's two characters to `r` and returns `r`. */
  method AppendByteHex(r: StringBuilder, b: int8) returns (same: StringBuilder)
    modifies r
    ensures same == r
    ensures r.content == old(r.content) + ByteHex(b)
  {
    r.Append(CODE[HighNibble(b)]);
    r.Append(CODE[LowNibble(b)]);
    same := r;
  }

  /** toHex(buf, start, len). */
  method ToHex(buf: array<int8>, start: int32, len: int32) returns (r: Result<string, Exception>)
    ensures r == ToHexResult(buf[..], start, len)
  {
    var capacity := Wrap32(2 * len as int);
    if capacity < 0 {
      return Failure(Exception(NegativeArraySizeException, "", None));
    }
    var sb := new StringBuilder(capacity);
    var i: int := 0;
    while i < len as int
      invariant 0 <= i && fresh(sb)
      invariant len as int > 0 ==> i <= len as int
      invariant 0 < i ==> 0 <= start as int && start as int + i <= buf.Length
      invariant 0 < i ==> sb.content == HexEncode(buf[start as int..start as int + i])
      invariant i == 0 ==> sb.content == []
    {
      var index := start as int + i;
      if index < 0 || index >= buf.Length {
        return Failure(Exception(ArrayIndexOutOfBoundsException, "", None));
      }
      var b := buf[index];
      ghost var before := buf[start as int..start as int + i];
      assert buf[start as int..index + 1] == before + [b];
      sb := AppendByteHex(sb, b);
      i := i + 1;
    }
    if len <= 0 {
      return Success([]);
    }
    r := Success(sb.content);
  }

  /** The stream, reduced to the lines its PrintWriter has printed. */
  class TraceOutputStream {
    var lines: seq<string>

    constructor ()
      ensures lines == []
    {
      lines := [];
    }

    /** write(int): prints the code of the argument's low byte. */
    method Write(b: int32)
      modifies this
      ensures lines == old(lines) + [ByteHex(ToByte(b))]
    {
      var sb := new StringBuilder(0);
      sb := AppendByteHex(sb, ToByte(b));
      assert sb.content == ByteHex(ToByte(b));
      lines := lines + [sb.content];
    }

    /** write(byte[], off, len): prints the hex of the slice, or propagates toHex's
        exception and prints nothing. */
    method WriteBytes(b: array<int8>, off: int32, len: int32) returns (o: Outcome)
      modifies this
      ensures var hex := ToHexResult(b[..], off, len);
              && (hex.Success? ==> o == Normal && lines == old(lines) + [hex.value])
              && (hex.Failure? ==> o == Thrown(hex.error) && lines == old(lines))
    {
      var hex := ToHex(b, off, len);
      if hex.Failure? {
        return Thrown(hex.error);
      }
      lines := lines + [hex.value];
      o := Normal;
    }
  }
}
