/**
 * `base64_encode_audio` (src/realtime_api_async_python/utils.py): standard
 * Base64 of RFC 4648 section 4, with '=' padding. `Decode` is the strict
 * (canonical, section 3.5 of RFC 4648) decoder, stated here as the encoder's
 * partner: the two are inverse on every input.
 */
module Base64 {
  import opened Wrappers

  newtype byte = x: int | 0 <= x < 256

  const Pad: char := '='

  /** The 64 characters of the alphabet in table 1 of RFC 4648: A-Z a-z 0-9 + / */
  predicate IsAlphabetChar(c: char) {
    ('A' <= c <= 'Z') || ('a' <= c <= 'z') || ('0' <= c <= '9') || c == '+' || c == '/'
  }

  /** The character that encodes the 6-bit value `d` (table 1 of RFC 4648). */
  function CharOf(d: int): (c: char)
    requires 0 <= d < 64
    ensures IsAlphabetChar(c)
  {
    if d < 26 then ('A' as int + d) as char
    else if d < 52 then ('a' as int + (d - 26)) as char
    else if d < 62 then ('0' as int + (d - 52)) as char
    else if d == 62 then '+'
    else '/'
  }

  /** The 6-bit value an alphabet character stands for. */
  function ValueOf(c: char): (d: int)
    requires IsAlphabetChar(c)
    ensures 0 <= d < 64 && CharOf(d) == c
  {
    if 'A' <= c <= 'Z' then c as int - 'A' as int
    else if 'a' <= c <= 'z' then c as int - 'a' as int + 26
    else if '0' <= c <= '9' then c as int - '0' as int + 52
    else if c == '+' then 62
    else 63
  }

  lemma ValueOfCharOf(d: int)
    requires 0 <= d < 64
    ensures ValueOf(CharOf(d)) == d
  {
  }

  /** Three bytes, 24 bits, as four 6-bit characters. */
  function EncodeQuantum(a: byte, b: byte, c: byte): (s: string)
  {
    [CharOf(a as int / 4),
     CharOf((a as int % 4) * 16 + b as int / 16),
     CharOf((b as int % 16) * 4 + c as int / 64),
     CharOf(c as int % 64)]
  }

  /** `base64.b64encode(bytes).decode("utf-8")` */
  function Encode(bytes: seq<byte>): (s: string)
    ensures |s| == 4 * ((|bytes| + 2) / 3)
    ensures s == [] <==> bytes == []
    decreases |bytes|
  {
    if |bytes| == 0 then []
    else if |bytes| == 1 then
      var a := bytes[0] as int;
      [CharOf(a / 4), CharOf((a % 4) * 16), Pad, Pad]
    else if |bytes| == 2 then
      var a, b := bytes[0] as int, bytes[1] as int;
      [CharOf(a / 4), CharOf((a % 4) * 16 + b / 16), CharOf((b % 16) * 4), Pad]
    else
      EncodeQuantum(bytes[0], bytes[1], bytes[2]) + Encode(bytes[3..])
  }

  /** Four alphabet characters without padding back to three bytes. */
  function DecodeQuantum(q: string): (r: Option<seq<byte>>)
    requires |q| == 4
  {
    if IsAlphabetChar(q[0]) && IsAlphabetChar(q[1]) && IsAlphabetChar(q[2]) && IsAlphabetChar(q[3]) then
      var d0, d1, d2, d3 := ValueOf(q[0]), ValueOf(q[1]), ValueOf(q[2]), ValueOf(q[3]);
      Some([(d0 * 4 + d1 / 16) as byte, ((d1 % 16) * 16 + d2 / 4) as byte, ((d2 % 4) * 64 + d3) as byte])
    else None
  }

  /** The last quantum, which may carry one or two pad characters; the bits
      the padding leaves unused must be zero (canonical encoding). */
  function DecodeFinal(q: string): (r: Option<seq<byte>>)
    requires |q| == 4
  {
    if q[2] == Pad && q[3] == Pad then
      if IsAlphabetChar(q[0]) && IsAlphabetChar(q[1]) && ValueOf(q[1]) % 16 == 0 then
        Some([(ValueOf(q[0]) * 4 + ValueOf(q[1]) / 16) as byte])
      else None
    else if q[3] == Pad then
      if IsAlphabetChar(q[0]) && IsAlphabetChar(q[1]) && IsAlphabetChar(q[2]) && ValueOf(q[2]) % 4 == 0 then
        var d0, d1, d2 := ValueOf(q[0]), ValueOf(q[1]), ValueOf(q[2]);
        Some([(d0 * 4 + d1 / 16) as byte, ((d1 % 16) * 16 + d2 / 4) as byte])
      else None
    else DecodeQuantum(q)
  }

  /** Strict decoding per section 4 of RFC 4648: `None` for anything that is
      not the canonical encoding of some byte string. */
  function Decode(s: string): (r: Option<seq<byte>>)
    decreases |s|
  {
    if |s| == 0 then Some([])
    else if |s| < 4 then None
    else if |s| == 4 then DecodeFinal(s)
    else
      match DecodeQuantum(s[..4])
      case None => None
      case Some(head) =>
        match Decode(s[4..])
        case None => None
        case Some(tail) => Some(head + tail)
  }

  /** Every character is in the alphabet except at most two trailing pads. */
  ghost predicate WellFormed(s: string) {
    |s| % 4 == 0 &&
    forall i | 0 <= i < |s| :: IsAlphabetChar(s[i]) || (s[i] == Pad && |s| - 2 <= i && s[|s| - 1] == Pad)
  }

  lemma WellFormedPrepend(q: string, rest: string)
    requires |q| == 4 && IsAlphabetChar(q[0]) && IsAlphabetChar(q[1]) && IsAlphabetChar(q[2]) && IsAlphabetChar(q[3])
    requires |rest| >= 4 && WellFormed(rest)
    ensures WellFormed(q + rest)
    ensures (q + rest)[|q + rest| - 1] == rest[|rest| - 1] && (q + rest)[|q + rest| - 2] == rest[|rest| - 2]
  {
    var s := q + rest;
    forall i | 0 <= i < |s|
      ensures IsAlphabetChar(s[i]) || (s[i] == Pad && |s| - 2 <= i && s[|s| - 1] == Pad)
    {
      if i >= 4 {
        assert s[i] == rest[i - 4];
      }
    }
  }

  lemma EncodeOneWellFormed(bytes: seq<byte>)
    requires |bytes| == 1
    ensures var s := Encode(bytes); WellFormed(s) && s[3] == Pad && s[2] == Pad
  {
    var s := Encode(bytes);
    assert IsAlphabetChar(s[0]) && IsAlphabetChar(s[1]);
  }

  lemma EncodeTwoWellFormed(bytes: seq<byte>)
    requires |bytes| == 2
    ensures var s := Encode(bytes); WellFormed(s) && s[3] == Pad && s[2] != Pad
  {
    var s := Encode(bytes);
    assert IsAlphabetChar(s[0]) && IsAlphabetChar(s[1]) && IsAlphabetChar(s[2]);
  }

  lemma EncodeThreeWellFormed(bytes: seq<byte>)
    requires |bytes| == 3
    ensures var s := Encode(bytes); WellFormed(s) && s[3] != Pad && s[2] != Pad
  {
    var s := Encode(bytes);
    assert s == EncodeQuantum(bytes[0], bytes[1], bytes[2]) + Encode([]);
    assert IsAlphabetChar(s[0]) && IsAlphabetChar(s[1]) && IsAlphabetChar(s[2]) && IsAlphabetChar(s[3]);
  }

  /** The output uses the alphabet of section 4 of RFC 4648 and at most two
      trailing pads: two for one leftover byte, one for two, none otherwise. */
  lemma {:induction false} EncodeWellFormed(bytes: seq<byte>)
    ensures WellFormed(Encode(bytes))
    ensures |bytes| % 3 != 0 <==> Encode(bytes) != [] && Encode(bytes)[|Encode(bytes)| - 1] == Pad
    ensures |bytes| % 3 == 1 <==> Encode(bytes) != [] && Encode(bytes)[|Encode(bytes)| - 2] == Pad
    decreases |bytes|
  {
    if |bytes| == 1 {
      EncodeOneWellFormed(bytes);
    } else if |bytes| == 2 {
      EncodeTwoWellFormed(bytes);
    } else if |bytes| == 3 {
      EncodeThreeWellFormed(bytes);
    } else if |bytes| > 3 {
      EncodeWellFormed(bytes[3..]);
      EncodeLongWellFormed(bytes);
    }
  }

  lemma EncodeLongWellFormed(bytes: seq<byte>)
    requires |bytes| > 3
    requires var rest := Encode(bytes[3..]);
      WellFormed(rest) && rest != [] &&
      (|bytes[3..]| % 3 != 0 <==> rest[|rest| - 1] == Pad) &&
      (|bytes[3..]| % 3 == 1 <==> rest[|rest| - 2] == Pad)
    ensures var s := Encode(bytes);
      WellFormed(s) && s != [] &&
      (|bytes| % 3 != 0 <==> s[|s| - 1] == Pad) &&
      (|bytes| % 3 == 1 <==> s[|s| - 2] == Pad)
  {
    var q, rest := EncodeQuantum(bytes[0], bytes[1], bytes[2]), Encode(bytes[3..]);
    var s := Encode(bytes);
    assert s == q + rest;
    WellFormedPrepend(q, rest);
    ModThree(|bytes| - 3);
  }

  lemma ModThree(n: int)
    ensures (n + 3) % 3 == n % 3
  {
  }

  lemma DivMod4(x: int, y: int)
    requires 0 <= y < 4
    ensures (4 * x + y) / 4 == x && (4 * x + y) % 4 == y
  {
  }

  lemma DivMod16(x: int, y: int)
    requires 0 <= y < 16
    ensures (16 * x + y) / 16 == x && (16 * x + y) % 16 == y
  {
  }

  lemma DivMod64(x: int, y: int)
    requires 0 <= y < 64
    ensures (64 * x + y) / 64 == x && (64 * x + y) % 64 == y
  {
  }

  /** Regrouping 3 x 8 bits into 4 x 6 bits and back is the identity. */
  lemma BytesToSextetsAndBack(a: int, b: int, c: int)
    requires 0 <= a < 256 && 0 <= b < 256 && 0 <= c < 256
    ensures var d0, d1, d2, d3 := a / 4, (a % 4) * 16 + b / 16, (b % 16) * 4 + c / 64, c % 64;
      && 0 <= d0 < 64 && 0 <= d1 < 64 && 0 <= d2 < 64 && 0 <= d3 < 64
      && d0 * 4 + d1 / 16 == a && (d1 % 16) * 16 + d2 / 4 == b && (d2 % 4) * 64 + d3 == c
  {
    DivMod16(a % 4, b / 16);
    DivMod4(b % 16, c / 64);
  }

  /** Regrouping 4 x 6 bits into 3 x 8 bits and back is the identity. */
  lemma SextetsToBytesAndBack(d0: int, d1: int, d2: int, d3: int)
    requires 0 <= d0 < 64 && 0 <= d1 < 64 && 0 <= d2 < 64 && 0 <= d3 < 64
    ensures var a, b, c := d0 * 4 + d1 / 16, (d1 % 16) * 16 + d2 / 4, (d2 % 4) * 64 + d3;
      && 0 <= a < 256 && 0 <= b < 256 && 0 <= c < 256
      && a / 4 == d0 && (a % 4) * 16 + b / 16 == d1 && (b % 16) * 4 + c / 64 == d2 && c % 64 == d3
  {
    DivMod4(d0, d1 / 16);
    DivMod16(d1 % 16, d2 / 4);
    DivMod64(d2 % 4, d3);
  }

  lemma QuantumRoundTrip(a: byte, b: byte, c: byte)
    ensures DecodeQuantum(EncodeQuantum(a, b, c)) == Some([a, b, c])
  {
    var x, y, z := a as int, b as int, c as int;
    BytesToSextetsAndBack(x, y, z);
    var d0, d1, d2, d3 := x / 4, (x % 4) * 16 + y / 16, (y % 16) * 4 + z / 64, z % 64;
    ValueOfCharOf(d0);
    ValueOfCharOf(d1);
    ValueOfCharOf(d2);
    ValueOfCharOf(d3);
  }

  lemma DecodeEncodeOne(bytes: seq<byte>)
    requires |bytes| == 1
    ensures Decode(Encode(bytes)) == Some(bytes)
  {
    var a := bytes[0] as int;
    var d0, d1 := a / 4, (a % 4) * 16;
    var s := [CharOf(d0), CharOf(d1), Pad, Pad];
    assert Encode(bytes) == s;
    BytesToSextetsAndBack(a, 0, 0);
    DivMod16(a % 4, 0);
    ValueOfCharOf(d0);
    ValueOfCharOf(d1);
    assert d0 * 4 + d1 / 16 == a;
    assert DecodeFinal(s) == Some([a as byte]);
    assert [a as byte] == bytes;
  }

  lemma DecodeEncodeTwo(bytes: seq<byte>)
    requires |bytes| == 2
    ensures Decode(Encode(bytes)) == Some(bytes)
  {
    var a, b := bytes[0] as int, bytes[1] as int;
    var d0, d1, d2 := a / 4, (a % 4) * 16 + b / 16, (b % 16) * 4;
    var s := [CharOf(d0), CharOf(d1), CharOf(d2), Pad];
    assert Encode(bytes) == s;
    BytesToSextetsAndBack(a, b, 0);
    DivMod4(b % 16, 0);
    ValueOfCharOf(d0);
    ValueOfCharOf(d1);
    ValueOfCharOf(d2);
    assert s[2] != Pad && s[3] == Pad;
    assert ValueOf(s[0]) == d0 && ValueOf(s[1]) == d1 && ValueOf(s[2]) == d2 && d2 % 4 == 0;
    assert d0 * 4 + d1 / 16 == a && (d1 % 16) * 16 + d2 / 4 == b;
    assert DecodeFinal(s) == Some([a as byte, b as byte]);
    assert [a as byte, b as byte] == bytes;
  }

  /** Decoding an encoding gives back the bytes. */
  lemma {:induction false} DecodeEncode(bytes: seq<byte>)
    ensures Decode(Encode(bytes)) == Some(bytes)
    decreases |bytes|
  {
    var s := Encode(bytes);
    if |bytes| == 1 {
      DecodeEncodeOne(bytes);
    } else if |bytes| == 2 {
      DecodeEncodeTwo(bytes);
    } else if |bytes| == 3 {
      DecodeEncodeThree(bytes);
    } else if |bytes| > 3 {
      DecodeEncode(bytes[3..]);
      EncodeCons(bytes);
      DecodeEncodeLong(bytes, Encode(bytes[3..]));
    }
  }

  lemma DecodeEncodeThree(bytes: seq<byte>)
    requires |bytes| == 3
    ensures Decode(Encode(bytes)) == Some(bytes)
  {
    var q := EncodeQuantum(bytes[0], bytes[1], bytes[2]);
    assert Encode(bytes) == q + Encode([]) == q;
    QuantumRoundTrip(bytes[0], bytes[1], bytes[2]);
    assert q[2] != Pad && q[3] != Pad;
    assert bytes == [bytes[0], bytes[1], bytes[2]];
  }

  lemma EncodeCons(bytes: seq<byte>)
    requires |bytes| > 3
    ensures Encode(bytes) == EncodeQuantum(bytes[0], bytes[1], bytes[2]) + Encode(bytes[3..])
  {
  }

  lemma DecodeEncodeLong(bytes: seq<byte>, rest: string)
    requires |bytes| > 3 && |rest| >= 4 && Decode(rest) == Some(bytes[3..])
    ensures Decode(EncodeQuantum(bytes[0], bytes[1], bytes[2]) + rest) == Some(bytes)
  {
    var head, tail := [bytes[0], bytes[1], bytes[2]], bytes[3..];
    QuantumRoundTrip(bytes[0], bytes[1], bytes[2]);
    DecodeConcat(EncodeQuantum(bytes[0], bytes[1], bytes[2]), rest, head, tail);
    assert bytes == head + tail;
  }

  lemma DecodeConcat(q: string, rest: string, head: seq<byte>, tail: seq<byte>)
    requires |q| == 4 && |rest| >= 4
    requires DecodeQuantum(q) == Some(head) && Decode(rest) == Some(tail)
    ensures Decode(q + rest) == Some(head + tail)
  {
    var s := q + rest;
    assert s[..4] == q && s[4..] == rest;
  }

  lemma QuantumCanonical(q: string, out: seq<byte>)
    requires |q| == 4 && DecodeQuantum(q) == Some(out)
    ensures |out| == 3 && EncodeQuantum(out[0], out[1], out[2]) == q
  {
    var d0, d1, d2, d3 := ValueOf(q[0]), ValueOf(q[1]), ValueOf(q[2]), ValueOf(q[3]);
    SextetsToBytesAndBack(d0, d1, d2, d3);
  }

  lemma FinalOneCanonical(q: string, out: seq<byte>)
    requires |q| == 4 && q[2] == Pad && q[3] == Pad && DecodeFinal(q) == Some(out)
    ensures Encode(out) == q
  {
    var d0, d1 := ValueOf(q[0]), ValueOf(q[1]);
    SextetsToBytesAndBack(d0, d1, 0, 0);
    DivMod16(d1 / 16, d1 % 16);
    assert |out| == 1;
  }

  lemma FinalTwoCanonical(q: string, out: seq<byte>)
    requires |q| == 4 && q[2] != Pad && q[3] == Pad && DecodeFinal(q) == Some(out)
    ensures Encode(out) == q
  {
    var d0, d1, d2 := ValueOf(q[0]), ValueOf(q[1]), ValueOf(q[2]);
    SextetsToBytesAndBack(d0, d1, d2, 0);
    assert |out| == 2;
  }

  lemma FinalCanonical(q: string, out: seq<byte>)
    requires |q| == 4 && DecodeFinal(q) == Some(out)
    ensures Encode(out) == q
  {
    if q[2] == Pad && q[3] == Pad {
      FinalOneCanonical(q, out);
    } else if q[3] == Pad {
      FinalTwoCanonical(q, out);
    } else {
      QuantumCanonical(q, out);
      assert Encode(out) == EncodeQuantum(out[0], out[1], out[2]) + Encode(out[3..]);
    }
  }

  /** Whatever decodes is the encoding of what it decodes to. */
  lemma {:induction false} EncodeDecode(s: string, bytes: seq<byte>)
    requires Decode(s) == Some(bytes)
    ensures Encode(bytes) == s
    decreases |s|
  {
    if |s| == 4 {
      FinalCanonical(s, bytes);
    } else if |s| > 4 {
      var head := DecodeQuantum(s[..4]).value;
      var tail := Decode(s[4..]).value;
      assert bytes == head + tail;
      QuantumCanonical(s[..4], head);
      EncodeDecode(s[4..], tail);
      assert tail != [];
      assert bytes[3..] == tail;
      assert s == s[..4] + s[4..];
    }
  }

  /** Encode and Decode are inverse: a string decodes to `bytes` exactly when it is their encoding. */
  lemma DecodeIffEncode(s: string, bytes: seq<byte>)
    ensures Decode(s) == Some(bytes) <==> Encode(bytes) == s
  {
    if Decode(s) == Some(bytes) {
      EncodeDecode(s, bytes);
    }
    if Encode(bytes) == s {
      DecodeEncode(bytes);
    }
  }
}
