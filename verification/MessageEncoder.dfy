// The registry of encoder executors with its selected element.
module MessageEncoders {
  import opened CTypes
  import opened Executors
  import opened Framing

  // An executor object: identity matters, its behaviour does not change.
  class Executor {
    const name: string
    const encode: Bytes -> Bytes
    const decode: Bytes -> Bytes

    constructor (name: string, encode: Bytes -> Bytes, decode: Bytes -> Bytes)
      ensures this.name == name && this.encode == encode && this.decode == decode
    {
      this.name := name;
      this.encode := encode;
      this.decode := decode;
    }
  }

  ghost predicate RoundTrips(e: Executor) {
    forall s: Bytes :: e.decode(e.encode(s)) == s
  }

  // ----- the registry as a value -----

  datatype Registry = Registry(executors: seq<Executor>, current: Executor?)

  datatype Call = Select(name: string) | Add(executor: Executor)

  ghost predicate DistinctNames(executors: seq<Executor>) {
    forall i, j :: 0 <= i < j < |executors| ==> executors[i].name != executors[j].name
  }

  ghost predicate Consistent(r: Registry) {
    DistinctNames(r.executors) && (r.current != null ==> r.current in r.executors)
  }

  // Position of the first executor of that name, or -1.
  function Find(executors: seq<Executor>, name: string): (k: int)
    ensures -1 <= k < |executors|
    ensures 0 <= k ==> executors[k].name == name
    ensures forall i :: 0 <= i < (if k < 0 then |executors| else k) ==> executors[i].name != name
  {
    if executors == [] then -1
    else if executors[0].name == name then 0
    else
      var k := Find(executors[1..], name);
      if k < 0 then -1 else k + 1
  }

  function Selected(r: Registry, name: string): Registry {
    var k := Find(r.executors, name);
    if k < 0 then r else r.(current := r.executors[k])
  }

  function Added(r: Registry, e: Executor): Registry {
    var k := Find(r.executors, e.name);
    if k < 0 then r.(executors := r.executors + [e])
    else Registry(r.executors[k := e], if r.current == r.executors[k] then e else r.current)
  }

  function Apply(r: Registry, c: Call): Registry {
    match c
    case Select(name) => Selected(r, name)
    case Add(e) => Added(r, e)
  }

  function Run(r: Registry, calls: seq<Call>): Registry
    decreases |calls|
  {
    if calls == [] then r else Run(Apply(r, calls[0]), calls[1..])
  }

  lemma ApplyConsistent(r: Registry, c: Call)
    requires Consistent(r)
    ensures Consistent(Apply(r, c))
  {
    if c.Add? {
      var e, k := c.executor, Find(r.executors, c.executor.name);
      var q := Added(r, e).executors;
      if 0 <= k {
        assert q[k] == e;
        if r.current != null && r.current != r.executors[k] {
          var i :| 0 <= i < |r.executors| && r.executors[i] == r.current;
          assert q[i] == r.current;
        }
      }
    }
  }

  lemma {:induction false} RunConsistent(r: Registry, calls: seq<Call>)
    requires Consistent(r)
    ensures Consistent(Run(r, calls))
    decreases |calls|
  {
    if calls != [] {
      ApplyConsistent(r, calls[0]);
      RunConsistent(Apply(r, calls[0]), calls[1..]);
    }
  }

  // The executor a name stands for: the one added last under it.
  function Under(r: Registry, name: string): Executor? {
    var k := Find(r.executors, name);
    if k < 0 then null else r.executors[k]
  }

  function LastAdded(calls: seq<Call>, name: string, default: Executor?): Executor? {
    if calls == [] then default
    else
      LastAdded(calls[1..], name,
                if calls[0].Add? && calls[0].executor.name == name then calls[0].executor else default)
  }

  lemma UnderAfterCall(r: Registry, c: Call, name: string)
    requires DistinctNames(r.executors)
    ensures Under(Apply(r, c), name) ==
            if c.Add? && c.executor.name == name then c.executor else Under(r, name)
  {
    if c.Add? {
      var e, k := c.executor, Find(r.executors, c.executor.name);
      var q := Added(r, e).executors;
      var i, j := Find(q, name), Find(r.executors, name);
      if e.name == name {
        assert q[if k < 0 then |r.executors| else k] == e;
      } else if 0 <= j {
        assert q[j] == r.executors[j];
      }
    }
  }

  lemma {:induction false} UnderIsLastAdded(r: Registry, calls: seq<Call>, name: string)
    requires Consistent(r)
    ensures Under(Run(r, calls), name) == LastAdded(calls, name, Under(r, name))
    decreases |calls|
  {
    if calls != [] {
      UnderAfterCall(r, calls[0], name);
      ApplyConsistent(r, calls[0]);
      UnderIsLastAdded(Apply(r, calls[0]), calls[1..], name);
    }
  }

  // The name that is selected: that of the last successful selection.
  function CurrentName(r: Registry): Option<string> {
    if r.current == null then None else Some(r.current.name)
  }

  lemma CurrentIsUnderItsName(r: Registry)
    requires Consistent(r) && r.current != null
    ensures r.current == Under(r, r.current.name)
  {
    var i :| 0 <= i < |r.executors| && r.executors[i] == r.current;
  }

  lemma CallKeepsCurrentName(r: Registry, c: Call)
    requires Consistent(r)
    ensures CurrentName(Apply(r, c)) ==
            if c.Select? && Under(r, c.name) != null then Some(c.name) else CurrentName(r)
  {
  }

  ghost predicate NoSelection(calls: seq<Call>) {
    forall i :: 0 <= i < |calls| ==> calls[i].Add?
  }

  // However the registry grows after a selection, the selected name stays, and the executor
  // in use is the one added last under that name.
  lemma {:induction false} SelectionFollowsName(r: Registry, calls: seq<Call>)
    requires Consistent(r) && r.current != null && NoSelection(calls)
    ensures CurrentName(Run(r, calls)) == CurrentName(r)
    ensures Run(r, calls).current == LastAdded(calls, r.current.name, r.current)
  {
    NamesKept(r, calls);
    RunConsistent(r, calls);
    UnderIsLastAdded(r, calls, r.current.name);
    CurrentIsUnderItsName(r);
    CurrentIsUnderItsName(Run(r, calls));
  }

  lemma {:induction false} NamesKept(r: Registry, calls: seq<Call>)
    requires Consistent(r) && NoSelection(calls)
    ensures CurrentName(Run(r, calls)) == CurrentName(r)
    decreases |calls|
  {
    if calls != [] {
      CallKeepsCurrentName(r, calls[0]);
      ApplyConsistent(r, calls[0]);
      NamesKept(Apply(r, calls[0]), calls[1..]);
    }
  }

  // ----- the class -----

  ghost predicate Defaults(executors: seq<Executor>) {
    && |executors| == 3
    && executors[0].name == "ROT3" && executors[1].name == "Mirror" && executors[2].name == "Multiply41"
    && (forall s: Bytes :: executors[0].encode(s) == Rotated(s, 3) && executors[0].decode(s) == Rotated(s, -3))
    && (forall s: Bytes :: executors[1].encode(s) == MirrorEncoded(s) && executors[1].decode(s) == MirrorDecoded(s))
    && (forall s: Bytes :: executors[2].encode(s) == Multiply41Encoded(s) && executors[2].decode(s) == Multiply41Decoded(s))
  }

  class MessageEncoder {
    var currentExecutor: Executor?
    var executors: seq<Executor>

    // The executors this encoder has deleted.
    ghost var deleted: set<Executor>

    ghost function Contents(): Registry
      reads this
    {
      Registry(executors, currentExecutor)
    }

    // In particular no deleted executor is registered or in use.
    ghost predicate Valid()
      reads this
    {
      Consistent(Contents()) && forall i :: 0 <= i < |executors| ==> executors[i] !in deleted
    }

    constructor ()
      ensures Valid() && fresh(this) && currentExecutor == null
      ensures Defaults(executors) && forall i :: 0 <= i < 3 ==> RoundTrips(executors[i])
    {
      currentExecutor := null;
      executors := [];
      deleted := {};
      new;
      DefaultsRoundTrip();
      var rot3 := new Executor("ROT3", s => Rotated(s, 3), s => Rotated(s, -3));
      var mirror := new Executor("Mirror", s => MirrorEncoded(s), s => MirrorDecoded(s));
      var multiply41 := new Executor("Multiply41", s => Multiply41Encoded(s), s => Multiply41Decoded(s));
      var _ := AddExecutor(rot3);
      var _ := AddExecutor(mirror);
      var _ := AddExecutor(multiply41);
    }

    method Encode(message: Bytes) returns (r: Bytes)
      requires Valid()
      ensures r == if currentExecutor == null then [] else currentExecutor.encode(message)
      ensures currentExecutor !in deleted
    {
      if currentExecutor == null {
        return [];
      }
      return currentExecutor.encode(message);
    }

    method Decode(message: Bytes) returns (r: Bytes)
      requires Valid()
      ensures r == if currentExecutor == null then [] else currentExecutor.decode(message)
    {
      if currentExecutor == null {
        return [];
      }
      return currentExecutor.decode(message);
    }

    method SelectExecutor(name: string) returns (ok: bool)
      requires Valid()
      modifies this`currentExecutor
      ensures Valid()
      ensures Contents() == Selected(old(Contents()), name)
      ensures ok <==> exists i :: 0 <= i < |executors| && executors[i].name == name
    {
      for i := 0 to |executors|
        invariant currentExecutor == old(currentExecutor)
        invariant forall j :: 0 <= j < i ==> executors[j].name != name
      {
        if executors[i].name == name {
          currentExecutor := executors[i];
          return true;
        }
      }
      return false;
    }

    method AddExecutor(executor: Executor?) returns (ok: bool)
      requires Valid() && executor !in executors && executor !in deleted
      modifies this
      ensures Valid()
      ensures ok <==> executor != null
      ensures Contents() == if executor == null then old(Contents()) else Added(old(Contents()), executor)
      ensures deleted == old(deleted) +
              if executor == null || Under(old(Contents()), executor.name) == null then {}
              else {Under(old(Contents()), executor.name)}
    {
      if executor == null {
        return false;
      }
      ApplyConsistent(Contents(), Add(executor));
      for i := 0 to |executors|
        invariant Valid() && Contents() == old(Contents()) && deleted == old(deleted)
        invariant forall j :: 0 <= j < i ==> executors[j].name != executor.name
      {
        var e := executors[i];
        if e.name == executor.name {
          if currentExecutor == e {
            currentExecutor := executor;
          }
          deleted := deleted + {e};
          executors := executors[i := executor];
          return true;
        }
      }
      executors := executors + [executor];
      return true;
    }
  }

  lemma DefaultsRoundTrip()
    ensures forall s: Bytes :: Rotated(Rotated(s, 3), -3) == s
    ensures forall s: Bytes :: MirrorDecoded(MirrorEncoded(s)) == s
    ensures forall s: Bytes :: Multiply41Decoded(Multiply41Encoded(s)) == s
  {
    forall s: Bytes ensures MirrorDecoded(MirrorEncoded(s)) == s {
      MirrorRoundTrip(s, []);
      assert MirrorEncoded(s) + [] == MirrorEncoded(s);
    }
    forall s: Bytes ensures Multiply41Decoded(Multiply41Encoded(s)) == s {
      Multiply41RoundTrip(s, []);
      assert Multiply41Encoded(s) + [] == Multiply41Encoded(s);
    }
    forall s: Bytes ensures Rotated(Rotated(s, 3), -3) == s {
      Rot3RoundTrip(s);
    }
  }

  lemma FindDefault(executors: seq<Executor>)
    requires Defaults(executors)
    ensures Find(executors, "ROT3") == 0 && Find(executors, "Mirror") == 1 && Find(executors, "Multiply41") == 2
  {
    assert executors[1..][0] == executors[1] && executors[1..][1..][0] == executors[2];
  }

  // What is encoded after the selection of a default executor.
  method EncodeBy(encoder: MessageEncoder, name: string, message: Bytes) returns (code: Bytes)
    requires encoder.Valid() && Defaults(encoder.executors)
    modifies encoder`currentExecutor
    ensures encoder.Valid() && encoder.executors == old(encoder.executors)
    ensures name == "ROT3" ==> code == Rotated(message, 3)
    ensures name == "Mirror" ==> code == MirrorEncoded(message)
    ensures name == "Multiply41" ==> code == Multiply41Encoded(message)
  {
    hide Find, MessageEncoder.Valid, Rotated, MirrorEncoded, Multiply41Encoded;
    FindDefault(encoder.executors);
    var _ := encoder.SelectExecutor(name);
    code := encoder.Encode(message);
  }

  lemma ExampleCodes()
    ensures Rotated(['A' as int], 3) == ['D' as int]
    ensures MirrorEncoded([132]) == [3, 0, 231] && Multiply41Encoded([7]) == [1, 31]
  {
    hide MirrorFrame, Multiply41Frame, Framed;
    MirrorOf132();
    Multiply41Of7();
    OneFrame(132, MirrorFrame);
    OneFrame(7, Multiply41Frame);
  }

  lemma MirrorOf132()
    ensures MirrorFrame(132) == [3, 0, 231]
  {
    hide MirrorFrame;
    MirrorFrameSays(132);
  }

  lemma Multiply41Of7()
    ensures Multiply41Frame(7) == [1, 31]
  {
    hide Multiply41Frame, Multiply41Char;
    Multiply41Says(7, [0, 0]);
  }

  // 'A' becomes 'D', 132 becomes 231 with its three digits, 7 becomes 287; without a selection nothing comes out.
  method DefaultExample() returns (none: Bytes, rotated: Bytes, mirrored: Bytes, multiplied: Bytes)
    ensures none == [] && rotated == ['D' as int] && mirrored == [3, 0, 231] && multiplied == [1, 31]
  {
    hide Find, MessageEncoder.Valid, Defaults, Rotated, MirrorEncoded, Multiply41Encoded;
    ExampleCodes();
    var encoder := new MessageEncoder();
    none := encoder.Encode(['A' as int]);
    rotated := EncodeBy(encoder, "ROT3", ['A' as int]);
    mirrored := EncodeBy(encoder, "Mirror", [132]);
    multiplied := EncodeBy(encoder, "Multiply41", [7]);
  }

  lemma OneFrame(c: uint8, frame: uint8 -> Bytes)
    ensures Framed([c], frame) == frame(c)
  {
    assert [c][1..] == [] && frame(c) + [] == frame(c);
  }
}
