// Codes that write every character as a frame of fixed size.
module Framing {
  import opened CTypes

  function Framed(s: Bytes, frame: uint8 -> Bytes): Bytes {
    if s == [] then [] else frame(s[0]) + Framed(s[1..], frame)
  }

  lemma FramedFrom(s: Bytes, i: nat, frame: uint8 -> Bytes)
    requires i < |s|
    ensures Framed(s[i..], frame) == frame(s[i]) + Framed(s[i + 1..], frame)
  {
    assert s[i..][1..] == s[i + 1..];
  }

  // Every full frame gives a character; a shorter tail is dropped.
  function Unframed(x: Bytes, n: nat, unframe: Bytes -> uint8): (s: Bytes)
    requires 0 < n
  {
    if |x| < n then [] else [unframe(x[..n])] + Unframed(x[n..], n, unframe)
  }

  lemma {:induction false} UnframedLength(x: Bytes, n: nat, unframe: Bytes -> uint8)
    requires 0 < n
    ensures |Unframed(x, n, unframe)| * n <= |x| < |Unframed(x, n, unframe)| * n + n
  {
    if n <= |x| {
      UnframedLength(x[n..], n, unframe);
      assert |Unframed(x, n, unframe)| == 1 + |Unframed(x[n..], n, unframe)|;
    }
  }

  // Frame i of the code is that of character i, and character i is that of frame i.
  lemma {:induction false} FramedAt(s: Bytes, n: nat, frame: uint8 -> Bytes, i: nat)
    requires (forall c: uint8 :: |frame(c)| == n) && i < |s|
    ensures |Framed(s, frame)| == |s| * n && 0 <= i * n <= i * n + n <= |s| * n
    ensures Framed(s, frame)[i * n..i * n + n] == frame(s[i])
  {
    FramedLength(s, n, frame);
    Places(i, |s|, n);
    if i > 0 {
      FramedAt(s[1..], n, frame, i - 1);
      assert i * n == n + (i - 1) * n;
      var rest := Framed(s[1..], frame);
      assert Framed(s, frame) == frame(s[0]) + rest;
      assert (frame(s[0]) + rest)[n + (i - 1) * n..n + (i - 1) * n + n] == rest[(i - 1) * n..(i - 1) * n + n];
    }
  }

  lemma Places(i: nat, k: nat, n: nat)
    requires i < k
    ensures 0 <= i * n <= i * n + n <= k * n
  {
    assert (i + 1) * n <= k * n;
  }

  lemma {:induction false} FramedLength(s: Bytes, n: nat, frame: uint8 -> Bytes)
    requires forall c: uint8 :: |frame(c)| == n
    ensures |Framed(s, frame)| == |s| * n
    decreases |s|
  {
    if s != [] {
      FramedLength(s[1..], n, frame);
      assert |s| * n == n + (|s| - 1) * n;
    }
  }

  lemma {:induction false} UnframedAt(x: Bytes, n: nat, unframe: Bytes -> uint8, i: nat)
    requires 0 < n && i < |Unframed(x, n, unframe)|
    ensures 0 <= i * n <= i * n + n <= |x|
    ensures Unframed(x, n, unframe)[i] == unframe(x[i * n..i * n + n])
  {
    if i > 0 {
      UnframedAt(x[n..], n, unframe, i - 1);
      assert i * n == n + (i - 1) * n;
      assert x[n..][(i - 1) * n..(i - 1) * n + n] == x[n + (i - 1) * n..n + (i - 1) * n + n];
    }
  }

  // unframe undoes frame.
  ghost predicate Inverse(n: nat, frame: uint8 -> Bytes, unframe: Bytes -> uint8) {
    0 < n && forall c: uint8 :: |frame(c)| == n && unframe(frame(c)) == c
  }

  lemma {:induction false} FramingRoundTrip(s: Bytes, tail: Bytes, n: nat, frame: uint8 -> Bytes, unframe: Bytes -> uint8)
    requires Inverse(n, frame, unframe) && |tail| < n
    ensures Unframed(Framed(s, frame) + tail, n, unframe) == s
  {
    var x := Framed(s, frame) + tail;
    if s == [] {
      assert x == tail;
    } else {
      FramingRoundTrip(s[1..], tail, n, frame, unframe);
      assert x[..n] == frame(s[0]);
      assert x[n..] == Framed(s[1..], frame) + tail;
    }
  }

  lemma {:induction false} FramedConcat(s: Bytes, t: Bytes, frame: uint8 -> Bytes)
    ensures Framed(s + t, frame) == Framed(s, frame) + Framed(t, frame)
    decreases |s|
  {
    if s == [] {
      assert s + t == t;
    } else {
      FramedConcat(s[1..], t, frame);
      assert (s + t)[1..] == s[1..] + t;
    }
  }
}
