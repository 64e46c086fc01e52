/**
 * UTF-16 strings and their UTF-8 encoding (RFC 3629, section 3), a lone surrogate encoded as
 * U+FFFD, and the two length checks that look at the UTF-16 length first.
 */
module Utf8 {
  import opened Common

  type Unit = u: int | 0 <= u < 0x1_0000
  type Byte = b: int | 0 <= b < 0x100
  type Scalar = c: int | 0 <= c < 0xD800 || 0xE000 <= c < 0x11_0000

  const REPLACEMENT: Scalar := 0xFFFD
  const EMAIL_LENGTH_MAX := 254 // RFC 5321, section 4.5.3.1.3

  predicate High(u: Unit) { 0xD800 <= u < 0xDC00 }
  predicate Low(u: Unit) { 0xDC00 <= u < 0xE000 }

  /** Whether the text starts with a surrogate pair. */
  predicate Paired(s: seq<Unit>) {
    |s| >= 2 && High(s[0]) && Low(s[1])
  }

  /** The scalar values of a text, each lone surrogate replaced. */
  function Scalars(s: seq<Unit>): seq<Scalar> {
    if s == [] then []
    else if Paired(s) then [0x1_0000 + (s[0] - 0xD800) * 0x400 + (s[1] - 0xDC00)] + Scalars(s[2..])
    else [if High(s[0]) || Low(s[0]) then REPLACEMENT else s[0]] + Scalars(s[1..])
  }

  function EncodeScalar(c: Scalar): (bytes: seq<Byte>)
    ensures 1 <= |bytes| <= 4
    ensures c < 0x1_0000 <==> |bytes| <= 3
  {
    if c < 0x80 then [c]
    else if c < 0x800 then [0xC0 + c / 0x40, 0x80 + c % 0x40]
    else if c < 0x1_0000 then [0xE0 + c / 0x1000, 0x80 + c / 0x40 % 0x40, 0x80 + c % 0x40]
    else [0xF0 + c / 0x4_0000, 0x80 + c / 0x1000 % 0x40, 0x80 + c / 0x40 % 0x40, 0x80 + c % 0x40]
  }

  function EncodeAll(cs: seq<Scalar>): seq<Byte> {
    if cs == [] then [] else EncodeScalar(cs[0]) + EncodeAll(cs[1..])
  }

  function Encode(s: seq<Unit>): seq<Byte> {
    EncodeAll(Scalars(s))
  }

  // ----- The encoding is UTF-8 -----

  predicate Continuation(b: Byte) { 0x80 <= b < 0xC0 }

  /** The bits a byte carries past its marker. */
  function Bits(b: Byte, marker: int): int { b - marker }

  /** One scalar read off the front by its lead byte, with what it took; `None` where there is none. */
  function DecodeOne(bytes: seq<Byte>): Option<(int, nat)> {
    if bytes == [] then None
    else
      var b := bytes[0];
      if b < 0x80 then Some((b, 1))
      else if 0xC2 <= b < 0xE0 && |bytes| >= 2 && Continuation(bytes[1]) then
        Some((Bits(b, 0xC0) * 0x40 + Bits(bytes[1], 0x80), 2))
      else if 0xE0 <= b < 0xF0 && |bytes| >= 3 && Continuation(bytes[1]) && Continuation(bytes[2]) then
        Some((Bits(b, 0xE0) * 0x1000 + Bits(bytes[1], 0x80) * 0x40 + Bits(bytes[2], 0x80), 3))
      else if && 0xF0 <= b < 0xF5 && |bytes| >= 4
              && Continuation(bytes[1]) && Continuation(bytes[2]) && Continuation(bytes[3]) then
        Some((Bits(b, 0xF0) * 0x4_0000 + Bits(bytes[1], 0x80) * 0x1000
              + Bits(bytes[2], 0x80) * 0x40 + Bits(bytes[3], 0x80), 4))
      else None
  }

  lemma DecodesScalar(c: Scalar, rest: seq<Byte>)
    ensures DecodeOne(EncodeScalar(c) + rest) == Some((c, |EncodeScalar(c)|))
  {
    var bytes := EncodeScalar(c) + rest;
    assert forall i :: 0 <= i < |EncodeScalar(c)| ==> bytes[i] == EncodeScalar(c)[i];
    assert c == c / 0x40 * 0x40 + c % 0x40;
    assert c / 0x40 == c / 0x1000 * 0x40 + c / 0x40 % 0x40;
    assert c / 0x1000 == c / 0x4_0000 * 0x40 + c / 0x1000 % 0x40;
  }

  function Decode(bytes: seq<Byte>): Option<seq<int>>
    decreases |bytes|
  {
    if bytes == [] then Some([])
    else
      match DecodeOne(bytes)
      case None => None
      case Some((c, n)) =>
        if n == 0 || n > |bytes| then None
        else
          match Decode(bytes[n..])
          case None => None
          case Some(rest) => Some([c] + rest)
  }

  function Ints(cs: seq<Scalar>): (r: seq<int>)
    ensures |r| == |cs| && forall i :: 0 <= i < |cs| ==> r[i] == cs[i]
  {
    seq(|cs|, i requires 0 <= i < |cs| => cs[i])
  }

  /** Decoding gives the scalars back: no information is lost but which surrogate stood alone. */
  lemma {:induction false} EncodeRoundTrips(cs: seq<Scalar>)
    ensures Decode(EncodeAll(cs)) == Some(Ints(cs))
  {
    if cs != [] {
      var first, rest := EncodeScalar(cs[0]), EncodeAll(cs[1..]);
      DecodesScalar(cs[0], rest);
      EncodeRoundTrips(cs[1..]);
      assert (first + rest)[|first|..] == rest;
      assert Ints(cs) == [cs[0]] + Ints(cs[1..]);
    }
  }

  // ----- Lengths -----

  /** A unit takes from one to three bytes: a pair takes four, a lone surrogate three. */
  lemma {:induction false} LengthBounds(s: seq<Unit>)
    ensures |s| <= |Encode(s)| <= 3 * |s|
  {
    if s != [] {
      var c, rest := Scalars(s)[0], if Paired(s) then s[2..] else s[1..];
      assert Scalars(s) == [c] + Scalars(rest);
      assert Scalars(s)[1..] == Scalars(rest);
      LengthBounds(rest);
    }
  }

  /** The length in bytes when it is over the cap. */
  method Utf8LengthOver(text: seq<Unit>, maxBytes: nat) returns (size: Option<nat>)
    ensures size == if |Encode(text)| > maxBytes then Some(|Encode(text)|) else None
  {
    LengthBounds(text);
    if |text| * 3 <= maxBytes {
      return None;
    }
    var measured := |Encode(text)|;
    return if measured > maxBytes then Some(measured) else None;
  }

  method IsEmailWithinLengthMax(s: seq<Unit>) returns (ok: bool)
    ensures ok <==> |Encode(s)| <= EMAIL_LENGTH_MAX
  {
    LengthBounds(s);
    ok := |s| <= EMAIL_LENGTH_MAX && |Encode(s)| <= EMAIL_LENGTH_MAX;
  }

  /** A text of `n` copies of one unit. */
  function Copies(u: Unit, n: nat): seq<Unit> {
    if n == 0 then [] else [u] + Copies(u, n - 1)
  }

  /** Neither bound can be tightened: one byte a unit is reached, and so is three. */
  lemma {:induction false} BoundsAreReached(n: nat)
    ensures |Copies(0x61, n)| == n == |Encode(Copies(0x61, n))|
    ensures |Copies(0x20AC, n)| == n && |Encode(Copies(0x20AC, n))| == 3 * n
  {
    if n > 0 {
      BoundsAreReached(n - 1);
      CopiesStep(0x61, n);
      CopiesStep(0x20AC, n);
    }
  }

  lemma CopiesStep(u: Unit, n: nat)
    requires n > 0 && !High(u) && !Low(u)
    ensures Encode(Copies(u, n)) == EncodeScalar(u) + Encode(Copies(u, n - 1))
  {
    assert Copies(u, n)[1..] == Copies(u, n - 1);
    var cs := Scalars(Copies(u, n));
    assert cs == [u] + Scalars(Copies(u, n - 1));
    assert cs[1..] == Scalars(Copies(u, n - 1));
  }
}
