/** Content hashes as 32 bytes and as 64 hexadecimal characters. */
module ContentHash {
  import opened Prelude
  import opened IntegrityCheck

  const HASH_LEN: nat := 32
  const HASH_HEX_LEN: nat := HASH_LEN * 2

  type Hash = h: Bytes | |h| == HASH_LEN witness seq(HASH_LEN, _ => 0)

  const DIGITS: string := "0123456789abcdef"

  function HexDigit(n: nat): (c: char)
    requires n < 16
    ensures '0' <= c <= '9' || 'a' <= c <= 'f'
  {
    DIGITS[n]
  }

  function HexValue(c: char): (r: Option<nat>)
    ensures r.Some? ==> r.value < 16
  {
    if '0' <= c <= '9' then Some((c - '0') as nat)
    else if 'a' <= c <= 'f' then Some((c - 'a') as nat + 10)
    else if 'A' <= c <= 'F' then Some((c - 'A') as nat + 10)
    else None
  }

  function Encode(bytes: Bytes): (s: string)
    ensures |s| == 2 * |bytes|
    ensures forall i :: 0 <= i < |s| ==> '0' <= s[i] <= '9' || 'a' <= s[i] <= 'f'
  {
    if bytes == [] then ""
    else [HexDigit(bytes[0] / 16), HexDigit(bytes[0] % 16)] + Encode(bytes[1..])
  }

  function Decode(s: string): (r: Option<Bytes>)
    ensures r.Some? ==> |s| == 2 * |r.value|
  {
    if s == "" then Some([])
    else if |s| == 1 || HexValue(s[0]).None? || HexValue(s[1]).None? then None
    else
      match Decode(s[2..])
      case None => None
      case Some(rest) => Some([HexValue(s[0]).value * 16 + HexValue(s[1]).value] + rest)
  }

  function ToHex(h: Hash): (s: string)
    ensures |s| == HASH_HEX_LEN
  {
    Encode(h)
  }

  /** Reading a hash accepts either case and nothing but 64 hexadecimal characters. */
  function Parse(s: string): Option<Hash> {
    if |s| != HASH_HEX_LEN then None
    else
      match Decode(s)
      case None => None
      case Some(bytes) => Some(bytes)
  }

  /** Two lower-case digits a byte, the higher half first. */
  lemma {:induction false} EncodedDigits(bytes: Bytes, i: nat)
    requires i < |bytes|
    ensures var high, low := bytes[i] / 16, bytes[i] % 16;
            && Encode(bytes)[2 * i] as int == (if high < 10 then '0' as int + high else 'a' as int + high - 10)
            && Encode(bytes)[2 * i + 1] as int == (if low < 10 then '0' as int + low else 'a' as int + low - 10)
  {
    if i > 0 {
      EncodedDigits(bytes[1..], i - 1);
      assert Encode(bytes) == [HexDigit(bytes[0] / 16), HexDigit(bytes[0] % 16)] + Encode(bytes[1..]);
    } else {
      DigitSpelled(bytes[0] / 16);
      DigitSpelled(bytes[0] % 16);
    }
  }

  lemma DigitSpelled(n: nat)
    requires n < 16
    ensures HexDigit(n) as int == if n < 10 then '0' as int + n else 'a' as int + n - 10
  {
    assert DIGITS[0] == '0' && DIGITS[1] == '1' && DIGITS[2] == '2' && DIGITS[3] == '3';
    assert DIGITS[4] == '4' && DIGITS[5] == '5' && DIGITS[6] == '6' && DIGITS[7] == '7';
    assert DIGITS[8] == '8' && DIGITS[9] == '9' && DIGITS[10] == 'a' && DIGITS[11] == 'b';
    assert DIGITS[12] == 'c' && DIGITS[13] == 'd' && DIGITS[14] == 'e' && DIGITS[15] == 'f';
  }

  lemma DigitCase(c: char, n: nat)
    requires n < 16
    ensures HexValue(c) == Some(n) <==> LowerAscii(c) == LowerAscii(HexDigit(n))
  {
    DigitSpelled(n);
  }

  lemma {:induction false} DecodeIffEncodes(s: string, bytes: Bytes)
    ensures Decode(s) == Some(bytes) <==> EqIgnoreAsciiCase(s, Encode(bytes))
  {
    if bytes == [] || |s| < 2 {
      assert Decode(s).Some? ==> |s| == 2 * |Decode(s).value|;
    } else {
      var hi, lo := bytes[0] / 16, bytes[0] % 16;
      var text := Encode(bytes);
      DecodeIffEncodes(s[2..], bytes[1..]);
      DigitCase(s[0], hi);
      DigitCase(s[1], lo);
      assert bytes == [bytes[0]] + bytes[1..];
      assert text[..2] == [HexDigit(hi), HexDigit(lo)] && text[2..] == Encode(bytes[1..]);
      if EqIgnoreAsciiCase(s, text) {
        assert LowerAscii(s[0]) == LowerAscii(text[0]) && LowerAscii(s[1]) == LowerAscii(text[1]);
        forall i | 0 <= i < |s[2..]|
          ensures LowerAscii(s[2..][i]) == LowerAscii(text[2..][i])
        {
          assert LowerAscii(s[i + 2]) == LowerAscii(text[i + 2]);
        }
      }
      if Decode(s) == Some(bytes) {
        var a, b := HexValue(s[0]).value, HexValue(s[1]).value;
        assert (Decode(s).value)[0] == a * 16 + b;
        assert (Decode(s).value)[1..] == Decode(s[2..]).value;
        assert a == hi && b == lo;
        forall i | 0 <= i < |s|
          ensures LowerAscii(s[i]) == LowerAscii(text[i])
        {
          if i >= 2 {
            assert LowerAscii(s[2..][i - 2]) == LowerAscii(text[2..][i - 2]);
          }
        }
      }
    }
  }

  /** The text of a hash, in any case, is exactly what parses to it. */
  lemma ParseIffHex(s: string, h: Hash)
    ensures Parse(s) == Some(h) <==> EqIgnoreAsciiCase(s, ToHex(h))
  {
    DecodeIffEncodes(s, h);
  }

  lemma HexRoundTrip(h: Hash)
    ensures Parse(ToHex(h)) == Some(h)
  {
    ParseIffHex(ToHex(h), h);
  }

  predicate IsSpace(c: char) {
    c == ' ' || c == '\t' || c == '\n' || c == '\r'
  }

  function Trim(s: string): (r: string)
    ensures |r| <= |s|
  {
    if s != "" && IsSpace(s[0]) then Trim(s[1..])
    else if s != "" && IsSpace(s[|s| - 1]) then Trim(s[..|s| - 1])
    else s
  }

  lemma HexIsTrimmed(h: Hash)
    ensures Trim(ToHex(h)) == ToHex(h)
  {
  }
}
