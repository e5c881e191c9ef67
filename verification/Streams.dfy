// Byte streams and the big endian integers read from and written to them.
module Streams {
  import opened CTypes
  import opened Positional

  // A std::ostringstream.
  class OutStream {
    var data: Bytes

    constructor ()
      ensures data == []
    {
      data := [];
    }

    method Put(c: int)
      modifies this
      ensures data == old(data) + [ToUint8(c)]
    {
      data := data + [ToUint8(c)];
    }
  }

  // A std::istringstream: past the end, or once failed, a read gives -1 and sets the fail flag.
  class InStream {
    const source: Bytes
    var pos: nat
    var failed: bool

    ghost predicate Valid()
      reads this
    {
      pos <= |source|
    }

    function Rest(): Bytes
      requires Valid()
      reads this
    {
      source[pos..]
    }

    constructor (source: Bytes)
      ensures Valid() && Rest() == source && !failed && fresh(this)
    {
      this.source := source;
      pos := 0;
      failed := false;
    }

    method Get() returns (c: int)
      requires Valid()
      modifies this
      ensures Valid()
      ensures failed == (old(failed) || old(Rest()) == [])
      ensures !failed ==> 0 <= c < 0x100 && old(Rest()) == [c] + Rest()
      ensures failed ==> c == -1
    {
      if failed || pos == |source| {
        failed := true;
        return -1;
      }
      c := source[pos];
      pos := pos + 1;
    }
  }

  function ToBE(v: int, n: nat): (s: Bytes)
    ensures |s| == n
  {
    Digits(v, n, Octets)
  }

  function FromBE(s: Bytes): int {
    Value(s, Octets)
  }

  lemma BigEndianRoundTrip(v: nat, n: nat)
    requires v < Pow(Octets, n)
    ensures FromBE(ToBE(v, n)) == v
  {
    ValueOfDigits(v, n, Octets);
  }

  lemma BigEndianUnique(s: Bytes)
    ensures ToBE(FromBE(s), |s|) == s && 0 <= FromBE(s) < Pow(Octets, |s|)
  {
    DigitsOfValue(s, Octets);
    ValueBound(s, Octets);
  }

  lemma Widths()
    ensures Pow(Octets, 1) == 0x100
    ensures Pow(Octets, 2) == 0x1_0000
    ensures Pow(Octets, 8) == 0x1_0000_0000_0000_0000
  {
    assert Pow(Octets, 3) == 0x100_0000;
    assert Pow(Octets, 4) == 0x1_0000_0000;
    assert Pow(Octets, 5) == 0x100_0000_0000;
    assert Pow(Octets, 6) == 0x1_0000_0000_0000;
    assert Pow(Octets, 7) == 0x100_0000_0000_0000;
  }

  // The highest octet comes first.
  lemma BigEndianAt(v: nat, n: nat, i: nat)
    requires i < n
    ensures ToBE(v, n)[i] == v / Pow(Octets, n - 1 - i) % 0x100
  {
    DigitAt(v, n, Octets, i);
  }

  lemma TwoOctets(v: nat, s: Bytes)
    requires |s| == 2
    ensures ToBE(v, 2) == [v / 0x100 % 0x100, v % 0x100]
    ensures FromBE(s) == s[0] as int * 0x100 + s[1]
  {
    assert Digits(v / 0x100, 1, Octets) == Digits(v / 0x100 / 0x100, 0, Octets) + [v / 0x100 % 0x100];
    NoOctets(s[..0]);
    OneMoreOctet(s, 0);
    OneMoreOctet(s, 1);
    assert s[..2] == s;
  }

  // The number of 64 bits with these octets, spelled out.
  function OfEight(s: seq<int>): int
    requires |s| == 8
  {
    s[0] * 0x100_0000_0000_0000 + s[1] * 0x1_0000_0000_0000 + s[2] * 0x100_0000_0000 + s[3] * 0x1_0000_0000 +
    s[4] * 0x100_0000 + s[5] * 0x1_0000 + s[6] * 0x100 + s[7]
  }

  lemma EightOctets(s: Bytes)
    requires |s| == 8
    ensures FromBE(s) == OfEight(s)
  {
    hide ToBE, FromBE, Value, Digits, Pow;
    NoOctets(s[..0]);
    OneMoreOctet(s, 0);
    OneMoreOctet(s, 1);
    OneMoreOctet(s, 2);
    OneMoreOctet(s, 3);
    OneMoreOctet(s, 4);
    OneMoreOctet(s, 5);
    OneMoreOctet(s, 6);
    OneMoreOctet(s, 7);
    assert s[..8] == s;
  }

  lemma NoOctets(s: Bytes)
    requires s == []
    ensures FromBE(s) == 0
  {
  }

  lemma OneMoreOctet(s: Bytes, i: nat)
    requires i < |s|
    ensures FromBE(s[..i + 1]) == FromBE(s[..i]) * 0x100 + s[i]
  {
    assert s[..i + 1][..i] == s[..i];
  }

  lemma OctetSplitOff(v: int, k: nat, s: Bytes)
    requires 0 < k
    ensures ToBE(v, k) + Reverse(s) == ToBE(v / 0x100, k - 1) + Reverse(s + [v % 0x100])
  {
    assert ToBE(v, k) == ToBE(v / 0x100, k - 1) + [v % 0x100];
    assert (s + [v % 0x100])[..|s|] == s;
  }

  // The octets of value in a buffer, the lowest one first.
  method FillOctets(buf: array<uint8>, value: int)
    modifies buf
    ensures Reverse(buf[..]) == ToBE(value, buf.Length)
  {
    hide ToBE, Reverse, Digits;
    var v, i := value, 0;
    while i < buf.Length
      invariant 0 <= i <= buf.Length
      invariant ToBE(value, buf.Length) == ToBE(v, buf.Length - i) + Reverse(buf[..i])
    {
      OctetSplitOff(v, buf.Length - i, buf[..i]);
      buf[i] := v % 0x100;
      assert buf[..i + 1] == buf[..i] + [v % 0x100];
      v := v / 0x100;
      i := i + 1;
    }
    assert buf[..buf.Length] == buf[..];
  }

  // Writes the n octets of value, of a signed or an unsigned type, the highest one first.
  method ToBigEndian(ostream: OutStream, value: int, n: nat)
    modifies ostream
    ensures ostream.data == old(ostream.data) + ToBE(value, n)
  {
    hide ToBE, Reverse, Digits;
    var buf := new uint8[n];
    FillOctets(buf, value);
    ghost var octets := buf[..];
    var i := n;
    while i > 0
      invariant 0 <= i <= n
      invariant buf[..] == octets
      invariant ostream.data == old(ostream.data) + ToBE(value, n)[..n - i]
    {
      ostream.Put(buf[i - 1]);
      i := i - 1;
    }
  }

  // value << 8 in an unsigned type of n octets.
  function ShiftedLeft(value: nat, n: nat): nat {
    value * 0x100 % Pow(Octets, n)
  }

  lemma ShiftKeepsAll(s: Bytes, i: nat, n: nat)
    requires i < |s| && i < n
    ensures FromBE(s[..i]) >= 0
    ensures ShiftedLeft(FromBE(s[..i]), n) + s[i] == FromBE(s[..i + 1])
  {
    var v := FromBE(s[..i]);
    ValueBound(s[..i], Octets);
    PowMonotone(Octets, i + 1, n);
    assert s[..i + 1][..i] == s[..i];
    assert v * 0x100 < Pow(Octets, i + 1);
    hide *;
    SmallRemainder(v * 0x100, Pow(Octets, n));
    assert ShiftedLeft(v, n) == v * 0x100;
  }

  lemma SmallRemainder(x: nat, p: nat)
    requires x < p
    ensures x % p == x
  {
  }

  // Reads an unsigned integer of n octets; when the stream runs out, all its bits are set.
  method FromBigEndian(istream: InStream, n: nat) returns (value: nat)
    requires istream.Valid() && 0 < n
    modifies istream
    ensures istream.Valid()
    ensures istream.failed == (old(istream.failed) || |old(istream.Rest())| < n)
    ensures !istream.failed ==>
      && old(istream.Rest()) == old(istream.Rest())[..n] + istream.Rest()
      && value == FromBE(old(istream.Rest())[..n])
    ensures istream.failed ==> value == Pow(Octets, n) - 1
  {
    value := 0;
    ghost var rest := istream.Rest();
    for i := 0 to n
      invariant istream.Valid()
      invariant istream.failed == (old(istream.failed) || |rest| < i)
      invariant !istream.failed ==> i <= |rest| && istream.Rest() == rest[i..] && value == FromBE(rest[..i])
      invariant istream.failed && 0 < i ==> value == Pow(Octets, n) - 1
    {
      hide Pow, Value, ShiftedLeft;
      ghost var before := value;
      value := ShiftedLeft(value, n);
      var c := istream.Get();
      if c < 0 {
        // value |= -1
        value := Pow(Octets, n) - 1;
      } else {
        // value |= c, whose octet in value is 0
        ShiftKeepsAll(rest, i, n);
        value := value + c;
      }
    }
  }
}
