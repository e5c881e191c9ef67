// What the program's results are, told in the submitted plans and the devices' own meterages.
module Scenarios {
  import opened CTypes
  import opened Messages
  import opened Plans
  import opened Histories
  import opened Conversations
  import opened EndToEnd
  import opened Programs

  // Entry j is the last plan submitted for device d.
  ghost predicate LastPlan(plans: seq<(uint64, seq<Phase>)>, d: uint64, j: int) {
    0 <= j < |plans| && plans[j].0 == d && forall l :: j < l < |plans| ==> plans[l].0 != d
  }

  lemma PlansOnly(h: History, plans: seq<(uint64, seq<Phase>)>, d: uint64)
    requires PlanCalls(h, plans)
    ensures forall j :: LastPlanCall(h, d, j) <==> LastPlan(plans, d, j)
    ensures forall j :: LastPlanCall(h, d, j) ==> h[j].submitted == plans[j].1
    ensures forall t: uint64 :: !Reached(h, d, t)
  {
    hide WellFormed;
    assert forall j :: 0 <= j < |plans| ==> h[j].Planned? && h[j].device == plans[j].0 && h[j].submitted == plans[j].1;
  }

  // What a device of a new program gets for its meterage i: an error without phases, or before the first
  // one, and else the correction toward a phase that has started last.
  lemma FirstReplies(h: History, plans: seq<(uint64, seq<Phase>)>, d: uint64, ms: Meterages, i: nat)
    requires PlanCalls(h, plans) && i < |ms|
    ensures |Expected(h, d, ms)| == |ms|
    ensures var r := Expected(h, d, ms)[i];
      && r != MessageError(Obsolete) && !r.MessageMeterage?
      && (r == MessageError(NoSchedule) <==> forall j :: LastPlan(plans, d, j) ==> plans[j].1 == [])
      && (r == MessageError(NoTimestamp) <==>
            exists j :: LastPlan(plans, d, j) && plans[j].1 != [] && AllLater(plans[j].1, i))
      && (r.MessageCommand? <==> exists j :: LastPlan(plans, d, j) && !AllLater(plans[j].1, i))
      && (r.MessageCommand? ==> exists j, k :: LastPlan(plans, d, j) && Corrects(plans[j].1, i, ms[i], k, r.command))
  {
    PlansOnly(h, plans, d);
    ReplySays(h, d, i, ms[i]);
    hide Reply, LastPlanCall, LastPlan, Reached, AllLater, Corrects;
  }

  // With distinct times there is one such phase.
  lemma FirstCommand(h: History, plans: seq<(uint64, seq<Phase>)>, d: uint64, ms: Meterages, i: nat, j: nat, k: nat)
    requires PlanCalls(h, plans) && i < |ms| && LastPlan(plans, d, j)
    requires DistinctTimes(plans[j].1) && k < |plans[j].1| && StartedLast(plans[j].1, i, k)
    ensures |Expected(h, d, ms)| == |ms|
    ensures Expected(h, d, ms)[i] == MessageCommand(ToInt8(plans[j].1[k].value as int - ms[i]))
  {
    hide PlanCalls, Expected;
    FirstReplies(h, plans, d, ms, i);
    hide ToInt8;
    var p, r := plans[j].1, Expected(h, d, ms)[i];
    OneLastPlan(plans, d, j);
    assert p[k].timeStamp <= i && !AllLater(p, i);
    var a: int, b: int :| LastPlan(plans, d, a) && Corrects(plans[a].1, i, ms[i], b, r.command);
    OneStartedLast(p, i, k, b);
    Narrowed(p[k].value as int - ms[i], r.command);
  }

  lemma OneLastPlan(plans: seq<(uint64, seq<Phase>)>, d: uint64, j: int)
    requires LastPlan(plans, d, j)
    ensures forall a :: LastPlan(plans, d, a) ==> a == j
  {
  }

  lemma OneStartedLast(p: seq<Phase>, t: uint64, k: nat, b: nat)
    requires DistinctTimes(p) && k < |p| && b < |p| && StartedLast(p, t, k) && StartedLast(p, t, b)
    ensures b == k
  {
  }

  lemma Narrowed(x: int, c: int8)
    requires (c - x) % 0x100 == 0
    ensures c == ToInt8(x)
  {
  }

  // Two devices under plans of their own, with any executor: the replies of each.
  method TwoDevices(executor: string) returns (first: seq<Message>, second: seq<Message>)
    ensures first == [MessageCommand(0), MessageCommand(-1), MessageCommand(1)]
    ensures second == [MessageError(NoTimestamp), MessageCommand(100), MessageCommand(0), MessageCommand(-100)]
  {
    hide Expected, PlanCalls;
    var p, q := [Phase(0, 0), Phase(1, 0), Phase(2, 3)], [Phase(1, 100), Phase(2, 50), Phase(3, 0)];
    var plans: seq<(uint64, seq<Phase>)> := [(111, p), (654, q)];
    var a: Meterages, b: Meterages := [0, 1, 2], [0, 0, 50, 100];
    var messages, _, _, h, _ := Monitor(11, executor, plans, map[111 := a, 654 := b], map[111 := 0, 654 := 0]);
    first, second := messages[111], messages[654];
    FirstDevice(h, plans, a);
    SecondDevice(h, plans, b);
  }

  lemma FirstDevice(h: History, plans: seq<(uint64, seq<Phase>)>, ms: Meterages)
    requires PlanCalls(h, plans) && |plans| == 2 && plans[1].0 == 654
    requires plans[0] == (111, [Phase(0, 0), Phase(1, 0), Phase(2, 3)]) && ms == [0, 1, 2]
    ensures Expected(h, 111, ms) == [MessageCommand(0), MessageCommand(-1), MessageCommand(1)]
  {
    hide PlanCalls, Expected;
    FirstCommand(h, plans, 111, ms, 0, 0, 0);
    FirstCommand(h, plans, 111, ms, 1, 0, 1);
    FirstCommand(h, plans, 111, ms, 2, 0, 2);
  }

  lemma SecondDevice(h: History, plans: seq<(uint64, seq<Phase>)>, ms: Meterages)
    requires PlanCalls(h, plans) && |plans| == 2
    requires plans[1] == (654, [Phase(1, 100), Phase(2, 50), Phase(3, 0)]) && ms == [0, 0, 50, 100]
    ensures Expected(h, 654, ms) ==
            [MessageError(NoTimestamp), MessageCommand(100), MessageCommand(0), MessageCommand(-100)]
  {
    hide PlanCalls, Expected;
    FirstReplies(h, plans, 654, ms, 0);
    assert LastPlan(plans, 654, 1) && AllLater(plans[1].1, 0);
    FirstCommand(h, plans, 654, ms, 1, 1, 0);
    FirstCommand(h, plans, 654, ms, 2, 1, 1);
    FirstCommand(h, plans, 654, ms, 3, 1, 2);
  }
}
