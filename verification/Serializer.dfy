// The binary form of the messages: a printer and a parser over byte streams.
module Serializer {
  import opened CTypes
  import opened Messages
  import opened Positional
  import opened Streams

  const TAG_ERROR: uint8 := 0x65       // 'e'
  const TAG_COMMAND: uint8 := 0x63     // 'c'
  const TAG_METERAGE: uint8 := 0x6D    // 'm'
  const TAG_NO_SCHEDULE: uint8 := 0x73   // 's'
  const TAG_NO_TIMESTAMP: uint8 := 0x74  // 't'
  const TAG_OBSOLETE: uint8 := 0x6F      // 'o'

  function ErrorTag(e: ErrorType): uint8 {
    match e
    case NoSchedule => TAG_NO_SCHEDULE
    case NoTimestamp => TAG_NO_TIMESTAMP
    case Obsolete => TAG_OBSOLETE
  }

  function Serialized(m: Message): (s: Bytes)
    ensures s != []
  {
    match m
    case MessageError(e) => [TAG_ERROR, ErrorTag(e)]
    case MessageCommand(c) => [TAG_COMMAND] + ToBE(c, 1)
    case MessageMeterage(t, v) => [TAG_METERAGE] + ToBE(t, 8) + ToBE(v, 1)
  }

  // The message at the start of s, if there is one.
  function Parsed(s: Bytes): Option<Message> {
    if s == [] then None
    else if s[0] == TAG_ERROR then
      if |s| < 2 then None
      else if s[1] == TAG_NO_SCHEDULE then Some(MessageError(NoSchedule))
      else if s[1] == TAG_NO_TIMESTAMP then Some(MessageError(NoTimestamp))
      else if s[1] == TAG_OBSOLETE then Some(MessageError(Obsolete))
      else None
    else if s[0] == TAG_COMMAND then
      if |s| < 2 then None else Some(MessageCommand(ToInt8(s[1])))
    else if s[0] == TAG_METERAGE then
      if |s| < 10 then None
      else
        BigEndianUnique(s[1..9]);
        Widths();
        Some(MessageMeterage(FromBE(s[1..9]), s[9]))
    else None
  }

  lemma OneOctet(v: int)
    ensures ToBE(v, 1) == [ToUint8(v)]
  {
    assert ToBE(v, 1) == ToBE(v / 0x100, 0) + [v % 0x100];
  }

  // Whatever follows a serialized message, the parser finds the message; no encoding is a proper
  // prefix of another.
  lemma ParsedSerialized(m: Message, s: Bytes)
    ensures Parsed(Serialized(m) + s) == Some(m)
  {
    hide ToBE, FromBE, Pow;
    match m
    case MessageError(e) =>
    case MessageCommand(c) =>
      OneOctet(c);
      Int8Octet(c);
    case MessageMeterage(t, v) =>
      OneOctet(v);
      Widths();
      BigEndianRoundTrip(t, 8);
      MeterageParts(ToBE(t, 8), v, s);
  }

  lemma MeterageParts(t: Bytes, v: uint8, s: Bytes)
    requires |t| == 8
    ensures var x := [TAG_METERAGE] + t + [v] + s; |x| >= 10 && x[0] == TAG_METERAGE && x[1..9] == t && x[9] == v
  {
  }

  // The parser accepts nothing else: an accepted string starts with the serialized message.
  lemma SerializedParsed(x: Bytes)
    ensures Parsed(x).Some? ==> Serialized(Parsed(x).value) <= x
  {
    hide ToBE, FromBE;
    if Parsed(x).Some? && x[0] == TAG_METERAGE {
      BigEndianUnique(x[1..9]);
      OneOctet(x[9]);
      assert Serialized(Parsed(x).value) == x[..10];
    } else if Parsed(x).Some? && x[0] == TAG_COMMAND {
      OneOctet(ToInt8(x[1]));
    }
  }

  lemma SerializedInjective(m: Message, n: Message, s: Bytes, t: Bytes)
    requires Serialized(m) + s == Serialized(n) + t
    ensures m == n && s == t
  {
    ParsedSerialized(m, s);
    ParsedSerialized(n, t);
    assert s == (Serialized(m) + s)[|Serialized(m)|..];
    assert t == (Serialized(n) + t)[|Serialized(n)|..];
  }

  // ----- the form, octet by octet -----

  // What stands in a message, in the characters and powers of two of the wire format.
  ghost predicate Stands(s: Bytes, m: Message) {
    match m
    case MessageError(NoSchedule) => |s| == 2 && s[0] == 'e' as int && s[1] == 's' as int
    case MessageError(NoTimestamp) => |s| == 2 && s[0] == 'e' as int && s[1] == 't' as int
    case MessageError(Obsolete) => |s| == 2 && s[0] == 'e' as int && s[1] == 'o' as int
    case MessageCommand(c) => |s| == 2 && s[0] == 'c' as int && s[1] == if c < 0 then c + 0x100 else c
    case MessageMeterage(t, v) => |s| == 10 && s[0] == 'm' as int && t == OfEight(s[1..9]) && v == s[9]
  }

  lemma MeterageStands(s: Bytes, t: uint64, v: uint8)
    requires |s| == 10 && s[0] == TAG_METERAGE
    ensures Stands(s, MessageMeterage(t, v)) <==> s == [TAG_METERAGE] + ToBE(t, 8) + ToBE(v, 1)
  {
    hide ToBE, FromBE, OfEight, Pow;
    EightOctets(s[1..9]);
    OneOctet(v);
    BigEndianUnique(s[1..9]);
    Widths();
    BigEndianRoundTrip(t, 8);
    SplitMeterage(s);
    var x := [TAG_METERAGE] + ToBE(t, 8) + ToBE(v, 1);
    assert x[1..9] == ToBE(t, 8) && x[9] == v;
  }

  lemma SplitMeterage(s: Bytes)
    requires |s| == 10
    ensures s == [s[0]] + s[1..9] + [s[9]]
  {
  }

  // A string is the serialized form of a message exactly if that stands in it.
  lemma SerializedStands(s: Bytes, m: Message)
    ensures s == Serialized(m) <==> Stands(s, m)
  {
    match m
    case MessageError(e) =>
    case MessageCommand(c) => OneOctet(c);
    case MessageMeterage(t, v) =>
      if |s| == 10 && s[0] == TAG_METERAGE {
        MeterageStands(s, t, v);
      }
  }

  // The parser gives a message exactly if that stands at the start of the string.
  lemma ParsedStands(s: Bytes, m: Message)
    ensures Parsed(s) == Some(m) <==> exists n :: 0 <= n <= |s| && Stands(s[..n], m)
  {
    hide Parsed, Serialized, Stands;
    if Parsed(s) == Some(m) {
      SerializedParsed(s);
      var n := |Serialized(m)|;
      assert s[..n] == Serialized(m);
      SerializedStands(s[..n], m);
    }
    if n :| 0 <= n <= |s| && Stands(s[..n], m) {
      SerializedStands(s[..n], m);
      ParsedSerialized(m, s[n..]);
      assert Serialized(m) + s[n..] == s;
    }
  }

  method Serialize(m: Message) returns (s: Bytes)
    ensures s == Serialized(m)
  {
    var ostream := new OutStream();
    match m
    case MessageError(e) =>
      ostream.Put(TAG_ERROR);
      match e {
        case NoSchedule => ostream.Put(TAG_NO_SCHEDULE);
        case NoTimestamp => ostream.Put(TAG_NO_TIMESTAMP);
        case Obsolete => ostream.Put(TAG_OBSOLETE);
      }
      return ostream.data;
    case MessageCommand(c) =>
      ostream.Put(TAG_COMMAND);
      ToBigEndian(ostream, c, 1);
      return ostream.data;
    case MessageMeterage(t, v) =>
      ostream.Put(TAG_METERAGE);
      ToBigEndian(ostream, t, 8);
      ToBigEndian(ostream, v, 1);
      return ostream.data;
  }

  // Some(m) stands for one call of the callback with m and the result true, None for no call and false.
  method Deserialize(s: Bytes) returns (r: Option<Message>)
    ensures r == Parsed(s)
  {
    var istream := new InStream(s);
    var ch := istream.Get();
    if istream.failed {
      return None;
    }
    if ch == TAG_ERROR {
      ch := istream.Get();
      if istream.failed {
        return None;
      }
      if ch == TAG_NO_SCHEDULE {
        return Some(MessageError(NoSchedule));
      } else if ch == TAG_NO_TIMESTAMP {
        return Some(MessageError(NoTimestamp));
      } else if ch == TAG_OBSOLETE {
        return Some(MessageError(Obsolete));
      }
    } else if ch == TAG_COMMAND {
      var command := FromBigEndian(istream, 1);
      if !istream.failed {
        OneOctetValue(s[1..2]);
        return Some(MessageCommand(ToInt8(command)));
      }
    } else if ch == TAG_METERAGE {
      r := DeserializeMeterage(istream);
      return;
    }
    return None;
  }

  lemma OneOctetValue(s: Bytes)
    requires |s| == 1
    ensures FromBE(s) == s[0]
  {
    assert Value(s[..0], Octets) == 0;
  }

  method DeserializeMeterage(istream: InStream) returns (r: Option<Message>)
    requires istream.Valid() && !istream.failed
    modifies istream
    ensures r == Parsed([TAG_METERAGE] + old(istream.Rest()))
  {
    ghost var s := istream.Rest();
    var timeStamp := FromBigEndian(istream, 8);
    ghost var t := istream.Rest();
    ghost var ok := !istream.failed;
    var meterage := FromBigEndian(istream, 1);
    if istream.failed {
      return None;
    }
    assert s[..8] == ([TAG_METERAGE] + s)[1..9];
    OneOctetValue(t[..1]);
    BigEndianUnique(s[..8]);
    Widths();
    return Some(MessageMeterage(timeStamp, meterage));
  }
}
