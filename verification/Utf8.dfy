/**
 UTF-8 as the WHATWG Encoding Standard decodes it (section 8.1.1), one code
 point at a time, and as RFC 3629 encodes it (section 3).
 */
module Utf8 {
  type Byte = b: int | 0 <= b < 0x100
  type Scalar = c: int | 0 <= c < 0xD800 || 0xE000 <= c < 0x11_0000

  const REPLACEMENT: Scalar := 0xFFFD
  const BYTE_ORDER_MARK: Scalar := 0xFEFF

  // ----- decoding -----

  /** What the decoder does with the bytes at its head; a malformed head names how many bytes it swallows. */
  datatype Head = Decoded(c: Scalar, length: nat) | Malformed(length: nat) | Incomplete

  predicate Continuation(b: Byte) { 0x80 <= b < 0xC0 }

  /** How many bytes a leading byte announces; 1 where it announces nothing. */
  function Announced(b: Byte): nat {
    if 0xF0 <= b <= 0xF4 then 4 else if 0xE0 <= b <= 0xEF then 3 else if 0xC2 <= b <= 0xDF then 2 else 1
  }

  /** The range of the second byte after this leading byte. */
  predicate SecondByte(lead: Byte, b: Byte) {
    && Continuation(b)
    && (lead == 0xE0 ==> 0xA0 <= b) && (lead == 0xED ==> b <= 0x9F)
    && (lead == 0xF0 ==> 0x90 <= b) && (lead == 0xF4 ==> b <= 0x8F)
  }

  /** Six more bits. */
  function Joined(bits: int, b: int): int { bits * 0x40 + (b - 0x80) }

  function Scan(bytes: seq<Byte>): (head: Head)
    requires bytes != []
    ensures head.Incomplete? ==> |bytes| < Announced(bytes[0])
    ensures !head.Incomplete? ==> 1 <= head.length <= |bytes|
  {
    var lead := bytes[0];
    if lead < 0x80 then Decoded(lead, 1)
    else if Announced(lead) == 1 then Malformed(1)
    else if |bytes| == 1 then Incomplete
    else if !SecondByte(lead, bytes[1]) then Malformed(1)
    else if Announced(lead) == 2 then Decoded(Joined(lead - 0xC0, bytes[1]), 2)
    else if |bytes| == 2 then Incomplete
    else if !Continuation(bytes[2]) then Malformed(2)
    else if Announced(lead) == 3 then
      Decoded(Joined(Joined(lead - 0xE0, bytes[1]), bytes[2]), 3)
    else if |bytes| == 3 then Incomplete
    else if !Continuation(bytes[3]) then Malformed(3)
    else
      Decoded(Joined(Joined(Joined(lead - 0xF0, bytes[1]), bytes[2]), bytes[3]), 4)
  }

  /** A streaming decoder keeps an incomplete tail; a flushing one replaces it. */
  function Decode(bytes: seq<Byte>, stream: bool): seq<Scalar> {
    if bytes == [] then []
    else match Scan(bytes)
      case Decoded(c, length) => [c] + Decode(bytes[length..], stream)
      case Malformed(length) => [REPLACEMENT] + Decode(bytes[length..], stream)
      case Incomplete => if stream then [] else [REPLACEMENT]
  }

  function StripMark(text: seq<Scalar>): seq<Scalar> {
    if text != [] && text[0] == BYTE_ORDER_MARK then text[1..] else text
  }

  /** A fresh decoder drops one byte order mark at the head of its output. */
  function Text(bytes: seq<Byte>, stream: bool): seq<Scalar> { StripMark(Decode(bytes, stream)) }

  // ----- encoding -----

  function Width(c: Scalar): (width: nat)
    ensures 1 <= width <= 4
  {
    if c < 0x80 then 1 else if c < 0x800 then 2 else if c < 0x1_0000 then 3 else 4
  }

  /** The bytes a text takes on the wire. */
  function Size(text: seq<Scalar>): nat {
    if text == [] then 0 else Width(text[0]) + Size(text[1..])
  }

  function EncodeOne(c: Scalar): (bytes: seq<Byte>)
    ensures |bytes| == Width(c)
  {
    if c < 0x80 then [c]
    else if c < 0x800 then [0xC0 + c / 0x40, 0x80 + c % 0x40]
    else if c < 0x1_0000 then [0xE0 + c / 0x1000, 0x80 + c / 0x40 % 0x40, 0x80 + c % 0x40]
    else [0xF0 + c / 0x4_0000, 0x80 + c / 0x1000 % 0x40, 0x80 + c / 0x40 % 0x40, 0x80 + c % 0x40]
  }

  function Encode(text: seq<Scalar>): (bytes: seq<Byte>)
    ensures |bytes| == Size(text)
  {
    if text == [] then [] else EncodeOne(text[0]) + Encode(text[1..])
  }

  // ----- a decoder never takes back what it has put out -----

  lemma ScanIsStable(bytes: seq<Byte>, c: nat)
    requires 0 < c <= |bytes| && !Scan(bytes[..c]).Incomplete?
    ensures Scan(bytes) == Scan(bytes[..c])
  {
  }

  lemma {:induction false} StreamIsPrefix(bytes: seq<Byte>, c: nat, stream: bool)
    requires c <= |bytes|
    ensures Decode(bytes[..c], true) <= Decode(bytes, stream)
  {
    if c > 0 && !Scan(bytes[..c]).Incomplete? {
      ScanIsStable(bytes, c);
      var n := Scan(bytes).length;
      assert bytes[..c][n..] == bytes[n..][..c - n];
      StreamIsPrefix(bytes[n..], c - n, stream);
    }
  }

  lemma {:induction false} SizeOfSum(a: seq<Scalar>, b: seq<Scalar>)
    ensures Size(a + b) == Size(a) + Size(b)
  {
    if a == [] {
      assert a + b == b;
    } else {
      assert (a + b)[1..] == a[1..] + b;
      SizeOfSum(a[1..], b);
    }
  }

  lemma SizeOfPrefix(a: seq<Scalar>, b: seq<Scalar>)
    requires a <= b
    ensures Size(a) <= Size(b)
  {
    assert b == a + b[|a|..];
    SizeOfSum(a, b[|a|..]);
  }

  /** What a stream has put out so far is no larger than what any longer input puts out. */
  lemma StreamIsSmaller(bytes: seq<Byte>, c: nat, stream: bool)
    requires c <= |bytes|
    ensures Text(bytes[..c], true) <= Text(bytes, stream) && Size(Text(bytes[..c], true)) <= Size(Text(bytes, stream))
  {
    StreamIsPrefix(bytes, c, stream);
    SizeOfPrefix(Text(bytes[..c], true), Text(bytes, stream));
  }

  /** Replacing malformed bytes makes text at most three times as long. */
  lemma {:induction false} DecodedSize(bytes: seq<Byte>, stream: bool)
    ensures Size(Decode(bytes, stream)) <= 3 * |bytes|
  {
    if bytes != [] && !Scan(bytes).Incomplete? {
      DecodedSize(bytes[Scan(bytes).length..], stream);
    }
  }

  lemma TextSize(bytes: seq<Byte>, stream: bool)
    ensures Size(Text(bytes, stream)) <= 3 * |bytes|
  {
    DecodedSize(bytes, stream);
  }

  // ----- well-formed input -----

  lemma Sextets(c: Scalar)
    ensures c / 0x40 / 0x40 == c / 0x1000 && c / 0x1000 / 0x40 == c / 0x4_0000
    ensures c == c / 0x40 * 0x40 + c % 0x40
    ensures c / 0x40 == c / 0x1000 * 0x40 + c / 0x40 % 0x40
    ensures c / 0x1000 == c / 0x4_0000 * 0x40 + c / 0x1000 % 0x40
  {
  }

  lemma EncodedHead(c: Scalar, rest: seq<Byte>)
    ensures Scan(EncodeOne(c) + rest) == Decoded(c, Width(c))
  {
    Sextets(c);
    var bytes := EncodeOne(c) + rest;
    if c < 0x80 {
    } else if c < 0x800 {
      assert bytes[0] == 0xC0 + c / 0x40 && bytes[1] == 0x80 + c % 0x40;
    } else if c < 0x1_0000 {
      assert bytes[0] == 0xE0 + c / 0x1000 && bytes[1] == 0x80 + c / 0x40 % 0x40 && bytes[2] == 0x80 + c % 0x40;
    } else {
      assert bytes[0] == 0xF0 + c / 0x4_0000 && bytes[1] == 0x80 + c / 0x1000 % 0x40;
      assert bytes[2] == 0x80 + c / 0x40 % 0x40 && bytes[3] == 0x80 + c % 0x40;
    }
  }

  lemma Unjoined(bits: int, b: int)
    requires 0 <= bits && 0x80 <= b < 0xC0
    ensures Joined(bits, b) / 0x40 == bits && 0x80 + Joined(bits, b) % 0x40 == b
  {
  }

  /** The decoder accepts nothing but what the encoder writes. */
  lemma ScanIsExact(bytes: seq<Byte>)
    requires bytes != [] && Scan(bytes).Decoded?
    ensures var head := Scan(bytes); head.length == Width(head.c) && bytes[..head.length] == EncodeOne(head.c)
  {
    Sextets(Scan(bytes).c);
    var (n, lead) := (Scan(bytes).length, bytes[0]);
    if n == 2 {
      Unjoined(lead - 0xC0, bytes[1]);
    } else if n == 3 {
      Unjoined(lead - 0xE0, bytes[1]);
      Unjoined(Joined(lead - 0xE0, bytes[1]), bytes[2]);
    } else if n == 4 {
      Unjoined(lead - 0xF0, bytes[1]);
      Unjoined(Joined(lead - 0xF0, bytes[1]), bytes[2]);
      Unjoined(Joined(Joined(lead - 0xF0, bytes[1]), bytes[2]), bytes[3]);
    }
  }

  lemma EncodedShape(c: Scalar)
    ensures !Continuation(EncodeOne(c)[0]) && Announced(EncodeOne(c)[0]) == Width(c)
    ensures forall i :: 1 <= i < Width(c) ==> Continuation(EncodeOne(c)[i])
  {
  }

  lemma CutHead(c: Scalar, n: nat)
    requires 0 < n < Width(c)
    ensures Scan(EncodeOne(c)[..n]) == Incomplete
  {
    EncodedHead(c, []);
    assert EncodeOne(c) + [] == EncodeOne(c);
  }

  /** More bytes could complete an encoding. */
  ghost predicate Begun(bytes: seq<Byte>) {
    exists c: Scalar :: |bytes| < Width(c) && EncodeOne(c)[..|bytes|] == bytes
  }

  /** The least bytes that complete what a lead announces. */
  function Filled(bytes: seq<Byte>): (all: seq<Byte>)
    requires bytes != [] && Scan(bytes).Incomplete?
    ensures |all| == Announced(bytes[0]) && all[..|bytes|] == bytes
  {
    var second: Byte := if bytes[0] == 0xE0 then 0xA0 else if bytes[0] == 0xF0 then 0x90 else 0x80;
    var two := if |bytes| == 1 then bytes + [second] else bytes;
    var three := if |two| == 2 && Announced(bytes[0]) > 2 then two + [0x80] else two;
    if |three| == 3 && Announced(bytes[0]) > 3 then three + [0x80] else three
  }

  lemma FilledDecodes(bytes: seq<Byte>)
    requires bytes != [] && Scan(bytes).Incomplete?
    ensures Scan(Filled(bytes)).Decoded? && Scan(Filled(bytes)).length == |Filled(bytes)|
  {
  }

  /** The decoder waits for more exactly where more could complete an encoding. */
  lemma WaitsExactly(bytes: seq<Byte>)
    requires bytes != []
    ensures Scan(bytes).Incomplete? <==> Begun(bytes)
  {
    if Scan(bytes).Incomplete? {
      FilledDecodes(bytes);
      ScanIsExact(Filled(bytes));
      var c := Scan(Filled(bytes)).c;
      assert Filled(bytes)[..|Filled(bytes)|] == Filled(bytes);
      assert |bytes| < Width(c) && EncodeOne(c)[..|bytes|] == bytes;
    }
    if c: Scalar :| |bytes| < Width(c) && EncodeOne(c)[..|bytes|] == bytes { CutHead(c, |bytes|); }
  }

  /** What a replacement swallows is the longest head that begins an encoding, or one byte where none does. */
  lemma SwallowsLongest(bytes: seq<Byte>, m: nat)
    requires bytes != [] && Scan(bytes).Malformed?
    ensures var n := Scan(bytes).length;
            (n == 1 || Begun(bytes[..n])) && (n < m <= |bytes| ==> !Begun(bytes[..m]))
  {
    var n := Scan(bytes).length;
    WaitsExactly(bytes[..n]);
    if n < m <= |bytes| { WaitsExactly(bytes[..m]); }
  }

  /** How many code points the first n bytes complete. */
  function Whole(text: seq<Scalar>, n: nat): (k: nat)
    ensures k <= |text|
  {
    if text == [] || Width(text[0]) > n then 0 else 1 + Whole(text[1..], n - Width(text[0]))
  }

  lemma {:induction false} DecodeEncoded(text: seq<Scalar>, n: nat)
    requires n <= |Encode(text)|
    ensures Decode(Encode(text)[..n], true) == text[..Whole(text, n)]
  {
    if n > 0 {
      var (one, rest) := (EncodeOne(text[0]), Encode(text[1..]));
      if n < Width(text[0]) {
        CutHead(text[0], n);
        assert Encode(text)[..n] == one[..n];
      } else {
        assert Encode(text)[..n] == one + rest[..n - |one|];
        DecodesOne(text[0], rest[..n - |one|], true);
        DecodeEncoded(text[1..], n - |one|);
      }
    }
  }

  lemma DecodesOne(c: Scalar, rest: seq<Byte>, stream: bool)
    ensures Decode(EncodeOne(c) + rest, stream) == [c] + Decode(rest, stream)
  {
    hide Scan, EncodeOne, Width;
    EncodedHead(c, rest);
    assert (EncodeOne(c) + rest)[Width(c)..] == rest;
  }

  /** Decoding undoes encoding. */
  lemma {:induction false} RoundTrip(text: seq<Scalar>, stream: bool)
    ensures Decode(Encode(text), stream) == text
  {
    if text != [] {
      hide Scan, EncodeOne, Width, Decode;
      DecodesOne(text[0], Encode(text[1..]), stream);
      RoundTrip(text[1..], stream);
    }
  }

  lemma {:induction false} EncodeOfSum(a: seq<Scalar>, b: seq<Scalar>)
    ensures Encode(a + b) == Encode(a) + Encode(b)
  {
    if a == [] {
      assert a + b == b;
    } else {
      assert (a + b)[1..] == a[1..] + b;
      EncodeOfSum(a[1..], b);
    }
  }
}
