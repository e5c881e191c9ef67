// The encoder executors: digit reversal, multiplication by 41 and rotation by 3.
module Executors {
  import opened CTypes
  import opened Framing
  import opened Positional
  import opened Streams

  // ----- Mirror -----

  // The number of decimal digits of v; none for 0.
  function NumDigits(v: nat): (d: nat)
    ensures v < Pow(Decimal, d)
    ensures 0 < d ==> Pow(Decimal, d - 1) <= v
  {
    if v == 0 then 0 else 1 + NumDigits(v / 10)
  }

  method CountDigits(value: uint16) returns (digits: nat)
    ensures digits == NumDigits(value)
  {
    digits := 0;
    var v := value;
    while v > 0
      invariant 0 <= v
      invariant digits + NumDigits(v) == NumDigits(value)
    {
      v := v / 10;
      digits := digits + 1;
    }
  }

  lemma DigitsReversed(v: int, n: nat)
    requires 0 < n
    ensures Reverse(Digits(v, n, Decimal)) == [v % 10] + Reverse(Digits(v / 10, n - 1, Decimal))
  {
  }

  lemma DigitAppended(done: seq<int>, d: int, result: uint16)
    requires 0 <= d < 10 && result == Value(done, Decimal) % 0x1_0000
    ensures (result * 10 % 0x1_0000 + d) % 0x1_0000 == Value(done + [d], Decimal) % 0x1_0000
  {
    ValueAppended(done, d);
    hide Value;
    PlaceIn16Bits(Value(done, Decimal), d, result);
  }

  lemma ValueAppended(done: seq<int>, d: int)
    ensures Value(done + [d], Decimal) == Value(done, Decimal) * 10 + d
  {
    assert (done + [d])[..|done|] == done;
  }

  // Whole multiples of 2^16 can be left out before or after.
  lemma PlaceIn16Bits(v: int, d: int, result: uint16)
    requires result == v % 0x1_0000
    ensures (result * 10 % 0x1_0000 + d) % 0x1_0000 == (v * 10 + d) % 0x1_0000
  {
    var q, p := v / 0x1_0000, result * 10 / 0x1_0000;
    assert v * 10 + d == (result * 10 % 0x1_0000 + d) + (q * 10 + p) * 0x1_0000;
  }

  // The loop of mirror, in 16 bit arithmetic; digits may be any octet read from a message.
  method Mirror(value: uint16, digits: nat) returns (result: uint16)
    ensures result == Mirrored(value, digits, Decimal) % 0x1_0000
  {
    hide Value, Digits, Reverse;
    result := 0;
    var v := value;
    ghost var done := [];
    ValueOfNone();
    for i := 0 to digits
      invariant 0 <= v
      invariant Reverse(Digits(value, digits, Decimal)) == done + Reverse(Digits(v, digits - i, Decimal))
      invariant result == Value(done, Decimal) % 0x1_0000
    {
      DigitsReversed(v, digits - i);
      DigitAppended(done, v % 10, result);
      result := result * 10 % 0x1_0000;
      result := (result + v % 10) % 0x1_0000;
      done := done + [v % 10];
      v := v / 10;
    }
    assert done == Reverse(Digits(value, digits, Decimal));
  }

  lemma ValueOfNone()
    ensures Value([], Decimal) == 0
  {
  }

  // No more than four digits fit 16 bits whatever they are, and an octet has at most three.
  lemma MirrorFits(v: nat, digits: nat)
    requires digits <= 4 && v < Pow(Decimal, digits)
    ensures 0 <= Mirrored(v, digits, Decimal) < 0x1_0000
    ensures Mirrored(Mirrored(v, digits, Decimal), digits, Decimal) == v
  {
    MirroredInvolution(v, digits, Decimal);
    PowMonotone(Decimal, digits, 4);
    assert Pow(Decimal, 2) == 100 && Pow(Decimal, 3) == 1000;
  }

  lemma OctetDigits(c: uint8)
    ensures NumDigits(c) <= 3
  {
    assert Pow(Decimal, 2) == 100;
    assert Pow(Decimal, 3) == 1000;
    if NumDigits(c) > 3 {
      PowMonotone(Decimal, 3, NumDigits(c) - 1);
      assert false;
    }
  }

  // The number of digits, then the digits backwards.
  function MirrorFrame(c: uint8): (f: Bytes)
    ensures |f| == 3
  {
    [ToUint8(NumDigits(c))] + ToBE(Mirrored(c, NumDigits(c), Decimal), 2)
  }

  function MirrorChar(f: Bytes): uint8 {
    if |f| == 3 then ToUint8(Mirrored(FromBE(f[1..3]), f[0], Decimal)) else 0
  }

  function MirrorEncoded(s: Bytes): Bytes {
    Framed(s, MirrorFrame)
  }

  function MirrorDecoded(x: Bytes): Bytes {
    Unframed(x, 3, MirrorChar)
  }

  lemma MirrorCharOfFrame(c: uint8)
    ensures MirrorChar(MirrorFrame(c)) == c
  {
    hide Digits, Pow, Value, Reverse, Mirrored, NumDigits;
    var d := NumDigits(c);
    OctetDigits(c);
    MirrorFits(c, d);
    var m := Mirrored(c, d, Decimal);
    Widths();
    BigEndianRoundTrip(m, 2);
    assert MirrorFrame(c)[1..3] == ToBE(m, 2);
    assert MirrorFrame(c)[0] == d;
  }

  // The frames in plain arithmetic: the number of digits, then the reversed number, its high octet first.
  lemma MirrorFrameSays(c: uint8)
    ensures MirrorFrame(c) == [DigitsSpelled(c), ReversedSpelled(c) / 0x100, ReversedSpelled(c) % 0x100]
  {
    DigitsOfOctet(c);
    hide Mirrored, NumDigits, ToBE, FromBE, Pow, DigitsSpelled, ReversedSpelled;
    ReversedOctet(c);
    Small(c);
    TwoOctets(ReversedSpelled(c), [0, 0]);
  }

  function DigitsSpelled(c: uint8): int {
    if c == 0 then 0 else if c < 10 then 1 else if c < 100 then 2 else 3
  }

  function ReversedSpelled(c: int): int {
    if c < 10 then c else if c < 100 then c % 10 * 10 + c / 10 else c % 10 * 100 + c / 10 % 10 * 10 + c / 100
  }

  lemma Small(c: uint8)
    ensures 0 <= DigitsSpelled(c) <= 3 && 0 <= ReversedSpelled(c) < 1000
    ensures ReversedSpelled(c) / 0x100 % 0x100 == ReversedSpelled(c) / 0x100
  {
  }

  lemma DigitsOfOctet(c: uint8)
    ensures NumDigits(c) == DigitsSpelled(c)
  {
    assert NumDigits(c / 100) == if c < 100 then 0 else 1;
    assert NumDigits(c / 10) == if c < 10 then 0 else 1 + NumDigits(c / 100);
  }

  lemma ReversedOctet(c: uint8)
    ensures Mirrored(c, DigitsSpelled(c), Decimal) == ReversedSpelled(c)
  {
    hide Value, Digits, Reverse;
    if c == 0 {
      NoDigits(c);
      ValueOfNone();
    } else if c < 10 {
      LastDigit(c);
      ValueAppended([], c % 10);
      ValueOfNone();
      assert [] + [c % 10] == [c % 10];
    } else if c < 100 {
      LastTwoDigits(c);
      ValueOfTwo(c % 10, c / 10 % 10);
    } else {
      LastThreeDigits(c);
      ValueOfThree(c % 10, c / 10 % 10, c / 100 % 10);
    }
  }

  lemma NoDigits(v: int)
    ensures Reverse(Digits(v, 0, Decimal)) == []
  {
  }

  lemma LastDigit(v: int)
    ensures Reverse(Digits(v, 1, Decimal)) == [v % 10]
  {
    DigitsReversed(v, 1);
  }

  lemma LastTwoDigits(v: int)
    ensures Reverse(Digits(v, 2, Decimal)) == [v % 10, v / 10 % 10]
  {
    hide Digits, Reverse;
    DigitsReversed(v, 2);
    LastDigit(v / 10);
  }

  lemma LastThreeDigits(v: int)
    ensures Reverse(Digits(v, 3, Decimal)) == [v % 10, v / 10 % 10, v / 100 % 10]
  {
    hide Digits, Reverse;
    DigitsReversed(v, 3);
    LastTwoDigits(v / 10);
    assert v / 10 / 10 == v / 100;
  }

  lemma ValueOfTwo(a: int, b: int)
    ensures Value([a, b], Decimal) == a * 10 + b
  {
    ValueAppended([], a);
    ValueAppended([a], b);
    assert [] + [a] == [a] && [a] + [b] == [a, b];
  }

  lemma ValueOfThree(a: int, b: int, c: int)
    ensures Value([a, b, c], Decimal) == a * 100 + b * 10 + c
  {
    ValueOfTwo(a, b);
    ValueAppended([a, b], c);
    assert [a, b] + [c] == [a, b, c];
  }

  // The decoder takes any number of digits and any 16 bits, and keeps the lowest octet of what it mirrors.
  lemma MirrorCharSays(f: Bytes)
    requires |f| == 3
    ensures (MirrorChar(f) - Mirrored(f[1] as int * 0x100 + f[2], f[0], Decimal)) % 0x100 == 0
  {
    hide Mirrored;
    TwoOctets(0, f[1..3]);
  }

  lemma MirrorRoundTrip(s: Bytes, tail: Bytes)
    requires |tail| < 3
    ensures MirrorDecoded(MirrorEncoded(s) + tail) == s
  {
    forall c: uint8 ensures |MirrorFrame(c)| == 3 && MirrorChar(MirrorFrame(c)) == c {
      MirrorCharOfFrame(c);
    }
    FramingRoundTrip(s, tail, 3, MirrorFrame, MirrorChar);
  }

  lemma MirrorEncodedAt(s: Bytes, i: nat)
    requires i < |s|
    ensures |MirrorEncoded(s)| == |s| * 3
    ensures MirrorEncoded(s)[i * 3..i * 3 + 3] ==
            [DigitsSpelled(s[i]), ReversedSpelled(s[i]) / 0x100, ReversedSpelled(s[i]) % 0x100]
  {
    hide MirrorFrame, Framed, ReversedSpelled, DigitsSpelled;
    FramedAt(s, 3, MirrorFrame, i);
    MirrorFrameSays(s[i]);
  }

  lemma MirrorDecodedAt(x: Bytes, i: nat)
    requires i < |x| / 3
    ensures |MirrorDecoded(x)| == |x| / 3 && MirrorDecoded(x)[i] == MirrorChar(x[i * 3..i * 3 + 3])
  {
    hide MirrorChar, Unframed;
    MirrorDecodedLength(x);
    UnframedAt(x, 3, MirrorChar, i);
  }

  lemma MirrorDecodedLength(x: Bytes)
    ensures |MirrorDecoded(x)| == |x| / 3
  {
    UnframedLength(x, 3, MirrorChar);
  }

  method MirrorEncode(message: Bytes) returns (encoded: Bytes)
    ensures encoded == MirrorEncoded(message)
  {
    hide ToBE, MirrorFrame, Multiply41Frame;
    var ostream := new OutStream();
    for i := 0 to |message|
      invariant ostream.data + MirrorEncoded(message[i..]) == MirrorEncoded(message)
    {
      var c := message[i];
      PutMirrorFrame(ostream, c);
      FramedFrom(message, i, MirrorFrame);
    }
    return ostream.data;
  }

  method PutMirrorFrame(ostream: OutStream, c: uint8)
    modifies ostream
    ensures ostream.data == old(ostream.data) + MirrorFrame(c)
  {
    hide Pow, NumDigits, Mirrored, ToBE;
    var digs := CountDigits(c);
    ostream.Put(digs);
    OctetDigits(c);
    MirrorFits(c, digs);
    var m := Mirror(c, digs);
    ToBigEndian(ostream, m, 2);
  }

  method MirrorDecode(message: Bytes) returns (decoded: Bytes)
    ensures decoded == MirrorDecoded(message)
  {
    var istream := new InStream(message);
    decoded := [];
    while true
      invariant istream.Valid() && !istream.failed && fresh(istream)
      invariant decoded + MirrorDecoded(istream.Rest()) == MirrorDecoded(message)
      decreases |istream.Rest()|
    {
      var ch := GetMirrorFrame(istream);
      if ch == None {
        break;
      }
      decoded := decoded + [ch.value];
    }
  }

  // One round of the decoding loop; None where the loop ends.
  method GetMirrorFrame(istream: InStream) returns (ch: Option<uint8>)
    requires istream.Valid() && !istream.failed
    modifies istream
    ensures istream.Valid()
    ensures ch.None? <==> |old(istream.Rest())| < 3
    ensures ch.Some? ==>
      && !istream.failed
      && old(istream.Rest())[3..] == istream.Rest()
      && ch.value == MirrorChar(old(istream.Rest())[..3])
  {
    ghost var x := istream.Rest();
    var digs := istream.Get();
    if istream.failed {
      return None;
    }
    ghost var y := istream.Rest();
    var frame := FromBigEndian(istream, 2);
    if istream.failed {
      return None;
    }
    FrameFits(y[..2]);
    var value := Mirror(frame, digs);
    FrameParts(x, digs, y);
    return Some(ToUint8(value));
  }

  lemma FrameParts(x: Bytes, c: uint8, y: Bytes)
    requires x == [c] + y && 2 <= |y|
    ensures |x| >= 3 && x[..3][0] == c && x[..3][1..3] == y[..2] && x[3..] == y[2..]
  {
  }

  lemma FrameFits(s: Bytes)
    requires |s| == 2
    ensures 0 <= FromBE(s) < 0x1_0000
  {
    BigEndianUnique(s);
    Widths();
  }

  // ----- Multiply41 -----

  function Multiply41Frame(c: uint8): (f: Bytes)
    ensures |f| == 2
  {
    ToBE(c * 41, 2)
  }

  function Multiply41Char(f: Bytes): uint8 {
    if |f| == 2 then ToUint8(FromBE(f) / 41) else 0
  }

  function Multiply41Encoded(s: Bytes): Bytes {
    Framed(s, Multiply41Frame)
  }

  function Multiply41Decoded(x: Bytes): Bytes {
    Unframed(x, 2, Multiply41Char)
  }

  lemma Multiply41Says(c: uint8, f: Bytes)
    requires |f| == 2
    ensures Multiply41Frame(c) == [c as int * 41 / 0x100, c as int * 41 % 0x100]
    ensures (Multiply41Char(f) - (f[0] as int * 0x100 + f[1]) / 41) % 0x100 == 0
  {
    TwoOctets(c * 41, f);
  }

  // The product of any character and 41 fits the 16 bits of a frame, and so is recovered whole.
  lemma Multiply41CharOfFrame(c: uint8)
    ensures c * 41 < 0x1_0000 && FromBE(Multiply41Frame(c)) == c * 41
    ensures Multiply41Char(Multiply41Frame(c)) == c
  {
    Widths();
    BigEndianRoundTrip(c * 41, 2);
  }

  lemma Multiply41RoundTrip(s: Bytes, tail: Bytes)
    requires |tail| < 2
    ensures Multiply41Decoded(Multiply41Encoded(s) + tail) == s
  {
    forall c: uint8 ensures |Multiply41Frame(c)| == 2 && Multiply41Char(Multiply41Frame(c)) == c {
      Multiply41CharOfFrame(c);
    }
    FramingRoundTrip(s, tail, 2, Multiply41Frame, Multiply41Char);
  }

  lemma Multiply41EncodedAt(s: Bytes, i: nat)
    requires i < |s|
    ensures |Multiply41Encoded(s)| == |s| * 2
    ensures Multiply41Encoded(s)[i * 2..i * 2 + 2] == [s[i] as int * 41 / 0x100, s[i] as int * 41 % 0x100]
  {
    hide Multiply41Frame, Framed;
    FramedAt(s, 2, Multiply41Frame, i);
    Multiply41Says(s[i], [0, 0]);
  }

  lemma Multiply41DecodedAt(x: Bytes, i: nat)
    requires i < |x| / 2
    ensures |Multiply41Decoded(x)| == |x| / 2
    ensures (Multiply41Decoded(x)[i] - (x[i * 2] as int * 0x100 + x[i * 2 + 1]) / 41) % 0x100 == 0
  {
    hide Multiply41Char, Unframed;
    UnframedLength(x, 2, Multiply41Char);
    UnframedAt(x, 2, Multiply41Char, i);
    Multiply41Says(0, x[i * 2..i * 2 + 2]);
  }

  method Multiply41Encode(message: Bytes) returns (encoded: Bytes)
    ensures encoded == Multiply41Encoded(message)
  {
    hide ToBE;
    var ostream := new OutStream();
    for i := 0 to |message|
      invariant ostream.data + Multiply41Encoded(message[i..]) == Multiply41Encoded(message)
    {
      var c: int := message[i];
      Multiply41CharOfFrame(c);
      ToBigEndian(ostream, c * 41 % 0x1_0000, 2);
      FramedFrom(message, i, Multiply41Frame);
    }
    return ostream.data;
  }

  method Multiply41Decode(message: Bytes) returns (decoded: Bytes)
    ensures decoded == Multiply41Decoded(message)
  {
    var istream := new InStream(message);
    decoded := [];
    while true
      invariant istream.Valid() && !istream.failed && fresh(istream)
      invariant decoded + Multiply41Decoded(istream.Rest()) == Multiply41Decoded(message)
      decreases |istream.Rest()|
    {
      ghost var x := istream.Rest();
      var value := FromBigEndian(istream, 2);
      if istream.failed {
        break;
      }
      assert x[2..] == istream.Rest();
      decoded := decoded + [ToUint8(value / 41)];
    }
  }

  // ----- ROT3 -----

  // A char is signed or unsigned as the platform has it: start is the least value of the type, -128 or 0.
  ghost predicate CharStart(start: int) {
    start == 0 || start == -0x80
  }

  ghost predicate AreChars(s: seq<int>, start: int) {
    forall i :: 0 <= i < |s| ==> start <= s[i] < start + 0x100
  }

  function CharOctets(s: seq<int>): (r: Bytes)
    ensures |r| == |s|
  {
    seq(|s|, i requires 0 <= i < |s| => ToUint8(s[i]))
  }

  function Rotated(s: Bytes, k: int): (r: Bytes)
    ensures |r| == |s|
  {
    seq(|s|, i requires 0 <= i < |s| => ToUint8(s[i] + k))
  }

  lemma Rot3RoundTrip(s: Bytes)
    ensures Rotated(Rotated(s, 3), -3) == s && Rotated(Rotated(s, -3), 3) == s
  {
  }

  // Every octet goes on by k, round a circle of 256.
  lemma RotatedBy(s: Bytes, k: int, i: nat)
    requires i < |s|
    ensures (Rotated(s, k)[i] - s[i] - k) % 0x100 == 0
  {
  }

  lemma RotatedConcat(s: Bytes, t: Bytes)
    ensures Rotated(s + t, 3) == Rotated(s, 3) + Rotated(t, 3)
  {
  }

  // A char that leaves its range comes back at the other end.
  lemma CharShifted(c: int, start: int, k: int)
    requires CharStart(start) && start <= c < start + 0x100 && k in {3, -3}
    ensures var d := if start + 0x100 <= c + k then c + k - 0x100 else if c + k < start then c + k + 0x100 else c + k;
      start <= d < start + 0x100 && ToUint8(d) == ToUint8(ToUint8(c) + k)
  {
  }

  // For either signedness the loop adds 3 to every octet modulo 256.
  method Rot3Encode(encoded: array<int>, start: int)
    requires CharStart(start) && AreChars(encoded[..], start)
    modifies encoded
    ensures AreChars(encoded[..], start)
    ensures CharOctets(encoded[..]) == Rotated(CharOctets(old(encoded[..])), 3)
    ensures forall i :: 0 <= i < encoded.Length ==>
              encoded[i] == old(encoded[i]) + 3 - if old(encoded[i]) + 3 < start + 0x100 then 0 else 0x100
  {
    hide ToUint8, CharStart;
    var end := start + 0x100;
    for i := 0 to encoded.Length
      invariant AreChars(encoded[..], start)
      invariant forall j :: 0 <= j < i ==> ToUint8(encoded[j]) == ToUint8(ToUint8(old(encoded[j])) + 3)
      invariant forall j :: 0 <= j < i ==>
                  encoded[j] == old(encoded[j]) + 3 - if old(encoded[j]) + 3 < start + 0x100 then 0 else 0x100
      invariant forall j :: i <= j < encoded.Length ==> encoded[j] == old(encoded[j])
    {
      var c := encoded[i];
      CharShifted(c, start, 3);
      if start <= c < end {
        c := c + 3;
        if end <= c {
          c := c - (end - start);
        }
        encoded[i] := c;
      }
    }
  }

  method Rot3Decode(decoded: array<int>, start: int)
    requires CharStart(start) && AreChars(decoded[..], start)
    modifies decoded
    ensures AreChars(decoded[..], start)
    ensures CharOctets(decoded[..]) == Rotated(CharOctets(old(decoded[..])), -3)
    ensures forall i :: 0 <= i < decoded.Length ==>
              decoded[i] == old(decoded[i]) - 3 + if start <= old(decoded[i]) - 3 then 0 else 0x100
  {
    hide ToUint8, CharStart;
    var end := start + 0x100;
    for i := 0 to decoded.Length
      invariant AreChars(decoded[..], start)
      invariant forall j :: 0 <= j < i ==> ToUint8(decoded[j]) == ToUint8(ToUint8(old(decoded[j])) - 3)
      invariant forall j :: 0 <= j < i ==>
                  decoded[j] == old(decoded[j]) - 3 + if start <= old(decoded[j]) - 3 then 0 else 0x100
      invariant forall j :: i <= j < decoded.Length ==> decoded[j] == old(decoded[j])
    {
      var c := decoded[i];
      CharShifted(c, start, -3);
      if start <= c < end {
        c := c - 3;
        if c < start {
          c := c + (end - start);
        }
        decoded[i] := c;
      }
    }
  }
}
