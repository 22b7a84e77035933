// Strict UTF-8, section 3 of RFC 3629.
module Utf8 {
  import opened Wrappers

  newtype byte = x: int | 0 <= x < 256

  type Scalar = c: nat | c < 0xD800 || 0xE000 <= c < 0x11_0000

  type Text = seq<Scalar>

  function EncodeChar(c: Scalar): (b: seq<byte>)
    ensures 1 <= |b| <= 4
  {
    if c < 0x80 then [c as byte]
    else if c < 0x800 then [(0xC0 + c / 64) as byte, (0x80 + c % 64) as byte]
    else if c < 0x1_0000 then [(0xE0 + c / 4096) as byte, (0x80 + c / 64 % 64) as byte, (0x80 + c % 64) as byte]
    else [(0xF0 + c / 262144) as byte, (0x80 + c / 4096 % 64) as byte, (0x80 + c / 64 % 64) as byte, (0x80 + c % 64) as byte]
  }

  function Encode(t: Text): (b: seq<byte>)
    ensures |t| <= |b|
  {
    if t == [] then [] else EncodeChar(t[0]) + Encode(t[1..])
  }

  // How many bytes a first byte announces.
  function Announced(b: byte): (n: nat)
    ensures n <= 4
  {
    if b < 0x80 then 1 else if b < 0xC0 then 0 else if b < 0xE0 then 2 else if b < 0xF0 then 3 else if b < 0xF8 then 4 else 0
  }

  function Value(b: seq<byte>): nat
    requires 1 <= |b| <= 4 && Announced(b[0]) == |b| && forall i | 1 <= i < |b| :: 0x80 <= b[i] < 0xC0
  {
    match |b|
    case 1 => b[0] as int
    case 2 => (b[0] as int - 0xC0) * 64 + (b[1] as int - 0x80)
    case 3 => (b[0] as int - 0xE0) * 4096 + (b[1] as int - 0x80) * 64 + (b[2] as int - 0x80)
    case _ => (b[0] as int - 0xF0) * 262144 + (b[1] as int - 0x80) * 4096 + (b[2] as int - 0x80) * 64 + (b[3] as int - 0x80)
  }

  // Only the encoding of a scalar value is accepted: no overlong form, no surrogate.
  function DecodeChar(b: seq<byte>): (r: Option<Scalar>)
    ensures r.Some? ==> EncodeChar(r.value) == b
  {
    if !(1 <= |b| <= 4) || Announced(b[0]) != |b| || exists i | 1 <= i < |b| :: !(0x80 <= b[i] < 0xC0) then None
    else
      var v := Value(b);
      if (v < 0xD800 || 0xE000 <= v < 0x11_0000) && EncodeChar(v) == b then Some(v) else None
  }

  function Decode(b: seq<byte>): (r: Option<Text>)
    ensures r.Some? ==> Encode(r.value) == b
    decreases |b|
  {
    if b == [] then Some([])
    else
      var n := Announced(b[0]);
      if n == 0 || |b| < n then None
      else match DecodeChar(b[..n])
        case None => None
        case Some(c) =>
          match Decode(b[n..])
          case None => None
          case Some(t) =>
            assert Encode([c] + t) == b[..n] + b[n..];
            Some([c] + t)
  }

  lemma {:induction false} EncodedChar(c: Scalar)
    ensures Announced(EncodeChar(c)[0]) == |EncodeChar(c)| && DecodeChar(EncodeChar(c)) == Some(c)
  {
    var b := EncodeChar(c);
    assert forall i | 1 <= i < |b| :: 0x80 <= b[i] < 0xC0;
    if |b| == 3 {
      assert c / 4096 * 64 + c / 64 % 64 == c / 64;
    } else if |b| == 4 {
      assert c / 262144 * 64 + c / 4096 % 64 == c / 4096;
      assert c / 4096 * 64 + c / 64 % 64 == c / 64;
    }
    assert Value(b) == c;
  }

  lemma {:induction false} DecodeEncode(t: Text)
    ensures Decode(Encode(t)) == Some(t)
  {
    if t != [] {
      EncodedChar(t[0]);
      DecodeEncode(t[1..]);
      var n := |EncodeChar(t[0])|;
      assert Encode(t)[..n] == EncodeChar(t[0]) && Encode(t)[n..] == Encode(t[1..]);
      assert [t[0]] + t[1..] == t;
    }
  }

  lemma {:induction false} EncodeAppend(s: Text, t: Text)
    ensures Encode(s + t) == Encode(s) + Encode(t)
  {
    if s == [] {
      assert s + t == t;
    } else {
      assert (s + t)[1..] == s[1..] + t;
      EncodeAppend(s[1..], t);
    }
  }

  // An offset cuts no character.
  ghost predicate Boundary(t: Text, offset: nat) {
    exists k | 0 <= k <= |t| :: |Encode(t[..k])| == offset
  }

  // A suffix decodes exactly when it starts on a boundary.
  lemma {:induction false} SuffixDecodes(t: Text, offset: nat)
    requires offset <= |Encode(t)|
    ensures Decode(Encode(t)[offset..]).Some? <==> Boundary(t, offset)
  {
    var b := Encode(t);
    if Decode(b[offset..]).Some? {
      SuffixStarts(t, offset);
    }
    if Boundary(t, offset) {
      var k :| 0 <= k <= |t| && |Encode(t[..k])| == offset;
      EncodeAppend(t[..k], t[k..]);
      assert t[..k] + t[k..] == t;
      assert b[offset..] == Encode(t[k..]);
      DecodeEncode(t[k..]);
    }
  }

  // The inside of a character starts with a continuation byte, which announces nothing.
  lemma {:induction false} InsideFails(c: Scalar, rest: seq<byte>, offset: nat)
    requires 0 < offset < |EncodeChar(c)|
    ensures Decode((EncodeChar(c) + rest)[offset..]).None?
  {
    var b := (EncodeChar(c) + rest)[offset..];
    assert b[0] == EncodeChar(c)[offset];
    assert 0x80 <= b[0] < 0xC0;
  }

  lemma {:induction false} SuffixStarts(t: Text, offset: nat)
    requires offset <= |Encode(t)| && Decode(Encode(t)[offset..]).Some?
    ensures Boundary(t, offset)
  {
    hide EncodeChar, Decode;
    if offset == 0 {
      assert |Encode(t[..0])| == 0;
    } else {
      var n := |EncodeChar(t[0])|;
      if offset < n {
        InsideFails(t[0], Encode(t[1..]), offset);
      } else {
        assert Encode(t)[offset..] == Encode(t[1..])[offset - n..];
        SuffixStarts(t[1..], offset - n);
        var k :| 0 <= k <= |t[1..]| && |Encode(t[1..][..k])| == offset - n;
        assert t[..k + 1] == [t[0]] + t[1..][..k];
        assert t[..k + 1][1..] == t[1..][..k];
        assert |Encode(t[..k + 1])| == offset;
      }
    }
  }
}
