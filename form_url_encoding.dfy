/**
 * What `URLSearchParams.toString()` does to one name or value: the
 * application/x-www-form-urlencoded serializer of the WHATWG URL Standard
 * (section 5.2, "application/x-www-form-urlencoded serializing"), which
 * UTF-8 encodes the text and then percent-encodes every byte outside a small
 * unreserved set, writing a space as `+`. Also `Number.prototype.toString`
 * for the integers the dashboard URL carries.
 */
module FormUrlEncoding {

  type Byte = b: int | 0 <= b < 256

  /** UTF-8 encoding of one Unicode scalar value (RFC 3629, section 3). */
  function Utf8(c: char): (bs: seq<Byte>)
    ensures 1 <= |bs| <= 4
    ensures c as int < 0x80 ==> bs == [c as int]
  {
    var cp := c as int;
    if cp < 0x80 then [cp]
    else if cp < 0x800 then [0xC0 + cp / 0x40, 0x80 + cp % 0x40]
    else if cp < 0x10000 then [0xE0 + cp / 0x1000, 0x80 + (cp / 0x40) % 0x40, 0x80 + cp % 0x40]
    else [0xF0 + cp / 0x40000, 0x80 + (cp / 0x1000) % 0x40, 0x80 + (cp / 0x40) % 0x40, 0x80 + cp % 0x40]
  }

  /** UTF-8 encoding of a whole string. */
  function Utf8Bytes(s: string): seq<Byte>
  {
    if s == [] then [] else Utf8(s[0]) + Utf8Bytes(s[1..])
  }

  /** Bytes the serializer copies unchanged: `*`, `-`, `.`, `0`-`9`, `A`-`Z`, `_`, `a`-`z`. */
  predicate IsUnreservedByte(b: int)
  {
    b == 0x2A || b == 0x2D || b == 0x2E || 0x30 <= b <= 0x39 || 0x41 <= b <= 0x5A
    || b == 0x5F || 0x61 <= b <= 0x7A
  }

  predicate IsUnreservedChar(c: char)
  {
    IsUnreservedByte(c as int)
  }

  /** The characters the serializer can produce. */
  predicate IsSerializedChar(c: char)
  {
    IsUnreservedChar(c) || c == '+' || c == '%'
  }

  /** Upper-case hexadecimal digit for 0..15. */
  function HexDigit(n: int): (c: char)
    requires 0 <= n < 16
    ensures IsUnreservedChar(c)
  {
    if n < 10 then ('0' as int + n) as char else ('A' as int + n - 10) as char
  }

  /** One byte of the serializer's output. */
  function EncodeByte(b: Byte): string
  {
    if b == 0x20 then "+"
    else if IsUnreservedByte(b) then [b as char]
    else ['%', HexDigit(b / 16), HexDigit(b % 16)]
  }

  function EncodeBytes(bs: seq<Byte>): string
  {
    if bs == [] then [] else EncodeByte(bs[0]) + EncodeBytes(bs[1..])
  }

  /** One name or value as `URLSearchParams` serializes it. */
  function FormEncode(s: string): string
  {
    if s == [] then [] else EncodeBytes(Utf8(s[0])) + FormEncode(s[1..])
  }

  lemma {:induction false} EncodeBytesChars(bs: seq<Byte>)
    ensures forall i :: 0 <= i < |EncodeBytes(bs)| ==> IsSerializedChar(EncodeBytes(bs)[i])
  {
    if bs != [] {
      EncodeBytesChars(bs[1..]);
    }
  }

  /**
   * The serializer only produces unreserved characters, `+` and `%`; in
   * particular never `&`, `=`, `#` or `?`, so the pairs of a query string
   * stay separable.
   */
  lemma {:induction false} FormEncodeChars(s: string)
    ensures forall i :: 0 <= i < |FormEncode(s)| ==> IsSerializedChar(FormEncode(s)[i])
    ensures forall i :: 0 <= i < |FormEncode(s)| ==> FormEncode(s)[i] !in "&=#?"
  {
    if s != [] {
      FormEncodeChars(s[1..]);
      EncodeBytesChars(Utf8(s[0]));
    }
  }

  predicate IsHexDigit(c: char)
  {
    '0' <= c <= '9' || 'A' <= c <= 'F' || 'a' <= c <= 'f'
  }

  function HexValue(c: char): (n: int)
    requires IsHexDigit(c)
    ensures 0 <= n < 16
  {
    if '0' <= c <= '9' then c as int - '0' as int
    else if 'A' <= c <= 'F' then c as int - 'A' as int + 10
    else c as int - 'a' as int + 10
  }

  /**
   * The byte sequence the application/x-www-form-urlencoded parser recovers
   * from one name or value (section 5.1 of the URL Standard): `+` is a space,
   * `%` followed by two hex digits is that byte, anything else is its UTF-8
   * encoding.
   */
  function FormDecode(s: string): seq<Byte>
    decreases |s|
  {
    if s == [] then []
    else if s[0] == '+' then [0x20] + FormDecode(s[1..])
    else if s[0] == '%' && |s| >= 3 && IsHexDigit(s[1]) && IsHexDigit(s[2]) then
      [HexValue(s[1]) * 16 + HexValue(s[2])] + FormDecode(s[3..])
    else Utf8(s[0]) + FormDecode(s[1..])
  }

  lemma DecodeEncodeByte(b: Byte, rest: string)
    ensures FormDecode(EncodeByte(b) + rest) == [b] + FormDecode(rest)
  {
    var e := EncodeByte(b) + rest;
    if b == 0x20 {
      assert e[0] == '+' && e[1..] == rest;
    } else if IsUnreservedByte(b) {
      assert e[0] == b as char && e[1..] == rest;
    } else {
      assert e[0] == '%' && e[1] == HexDigit(b / 16) && e[2] == HexDigit(b % 16) && e[3..] == rest;
      assert HexValue(HexDigit(b / 16)) == b / 16;
      assert HexValue(HexDigit(b % 16)) == b % 16;
    }
  }

  lemma EncodeBytesCons(bs: seq<Byte>, rest: string)
    requires bs != []
    ensures EncodeBytes(bs) + rest == EncodeByte(bs[0]) + (EncodeBytes(bs[1..]) + rest)
  {
  }

  lemma ConsBytes(bs: seq<Byte>, rest: seq<Byte>)
    requires bs != []
    ensures [bs[0]] + (bs[1..] + rest) == bs + rest
  {
  }

  lemma {:induction false} DecodeEncodeBytes(bs: seq<Byte>, rest: string)
    ensures FormDecode(EncodeBytes(bs) + rest) == bs + FormDecode(rest)
  {
    if bs == [] {
      assert EncodeBytes(bs) + rest == rest;
    } else {
      var tail := EncodeBytes(bs[1..]) + rest;
      EncodeBytesCons(bs, rest);
      DecodeEncodeByte(bs[0], tail);
      DecodeEncodeBytes(bs[1..], rest);
      ConsBytes(bs, FormDecode(rest));
    }
  }

  /** Round trip: parsing a serialized name or value gives back its UTF-8 bytes. */
  lemma {:induction false} FormDecodeEncode(s: string)
    ensures FormDecode(FormEncode(s)) == Utf8Bytes(s)
  {
    if s == [] {
    } else {
      FormDecodeEncode(s[1..]);
      DecodeEncodeBytes(Utf8(s[0]), FormEncode(s[1..]));
    }
  }

  /** An unreserved character is copied as it is. */
  lemma EncodeUnreservedChar(c: char)
    requires IsUnreservedChar(c)
    ensures EncodeBytes(Utf8(c)) == [c]
  {
    assert EncodeBytes([c as int]) == EncodeByte(c as int) + EncodeBytes([]);
  }

  /** Text made only of unreserved characters is serialized as it is. */
  lemma {:induction false} FormEncodeUnreserved(s: string)
    requires forall i :: 0 <= i < |s| ==> IsUnreservedChar(s[i])
    ensures FormEncode(s) == s
  {
    if s != [] {
      FormEncodeUnreserved(s[1..]);
      EncodeUnreservedChar(s[0]);
      assert s == [s[0]] + s[1..];
    }
  }

  function DigitChar(d: int): (c: char)
    requires 0 <= d < 10
    ensures '0' <= c <= '9'
  {
    ('0' as int + d) as char
  }

  /** Decimal digits of a natural number, most significant first, no leading zero. */
  function NatToString(n: nat): (s: string)
    ensures |s| >= 1
    ensures forall i :: 0 <= i < |s| ==> '0' <= s[i] <= '9'
    ensures |s| > 1 ==> s[0] != '0'
    decreases n
  {
    if n < 10 then [DigitChar(n)] else NatToString(n / 10) + [DigitChar(n % 10)]
  }

  /** `n.toString()` for an integer number. */
  function NumberToString(n: int): (s: string)
    ensures forall i :: 0 <= i < |s| ==> IsUnreservedChar(s[i])
  {
    if n < 0 then "-" + NatToString(-n) else NatToString(n)
  }

  /** Reads back a string of decimal digits. */
  function ParseNat(s: string): nat
    requires forall i :: 0 <= i < |s| ==> '0' <= s[i] <= '9'
  {
    if s == [] then 0 else ParseNat(s[..|s| - 1]) * 10 + (s[|s| - 1] as int - '0' as int)
  }

  /** Reads back an optional `-` and decimal digits. */
  function ParseNumber(s: string): int
    requires |s| >= 1
    requires forall i :: 0 <= i < |s| ==> '0' <= s[i] <= '9' || (i == 0 && s[i] == '-')
  {
    if s[0] == '-' then -(ParseNat(s[1..]) as int) else ParseNat(s)
  }

  lemma {:induction false} ParseNatToString(n: nat)
    ensures ParseNat(NatToString(n)) == n
    decreases n
  {
    if n >= 10 {
      ParseNatToString(n / 10);
      var s := NatToString(n);
      assert s[..|s| - 1] == NatToString(n / 10);
    }
  }

  /** `toString` on an integer loses nothing: the number can be read back. */
  lemma NumberToStringRoundTrip(n: int)
    ensures ParseNumber(NumberToString(n)) == n
  {
    if n < 0 {
      assert NumberToString(n)[1..] == NatToString(-n);
      ParseNatToString(-n);
    } else {
      ParseNatToString(n);
    }
  }

}
