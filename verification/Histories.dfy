// What the command center owes its callers, as functions of the whole history of calls.
// Nothing here has a cursor, a last time stamp or a running sum.
module Histories {
  import opened CTypes
  import opened Messages
  import opened Plans

  // One call: set_schedule with the order its sort produced, or process_meterage.
  datatype Event =
    | Planned(device: uint64, submitted: seq<Phase>, installed: seq<Phase>)
    | Measured(device: uint64, timeStamp: uint64, value: uint8)

  type History = seq<Event>

  ghost predicate WellFormed(h: History) {
    forall i :: 0 <= i < |h| && h[i].Planned? ==> Installs(h[i].submitted, h[i].installed)
  }

  // ----- replies -----

  ghost predicate Seen(h: History, d: uint64, t: uint64) {
    exists i :: 0 <= i < |h| && h[i].Measured? && h[i].device == d && t <= h[i].timeStamp
  }

  function LatestPlan(h: History, d: uint64): seq<Phase> {
    if h == [] then []
    else
      var e := h[|h| - 1];
      if e.Planned? && e.device == d then e.installed else LatestPlan(h[..|h| - 1], d)
  }

  // The phase a meterage taken at time t is compared with, if it is not answered with an error.
  ghost function InForce(h: History, d: uint64, t: uint64): Option<Phase> {
    if Seen(h, d, t) then None else Current(LatestPlan(h, d), t)
  }

  ghost function Reply(h: History, d: uint64, t: uint64, m: uint8): Message {
    if Seen(h, d, t) then MessageError(Obsolete)
    else if LatestPlan(h, d) == [] then MessageError(NoSchedule)
    else match InForce(h, d, t)
      case None => MessageError(NoTimestamp)
      case Some(p) => MessageCommand(ToInt8(p.value - m))
  }

  // All replies sent to device d in the course of h.
  ghost function Replies(h: History, d: uint64): seq<Message> {
    if h == [] then []
    else
      var pre, e := h[..|h| - 1], h[|h| - 1];
      if e.Measured? && e.device == d then Replies(pre, d) + [Reply(pre, d, e.timeStamp, e.value)]
      else Replies(pre, d)
  }

  // ----- statistics -----

  datatype Sample = Sample(phase: Phase, timeStamp: uint64, diff: int)

  // The meterages of device d that were answered with a command.
  ghost function Samples(h: History, d: uint64): seq<Sample> {
    if h == [] then []
    else
      var pre, e := h[..|h| - 1], h[|h| - 1];
      if e.Measured? && e.device == d && InForce(pre, d, e.timeStamp).Some? then
        var p := InForce(pre, d, e.timeStamp).value;
        Samples(pre, d) + [Sample(p, e.timeStamp, p.value - e.value)]
      else Samples(pre, d)
  }

  // Consecutive samples, at least one.
  type Run = s: seq<Sample> | s != [] witness [Sample(Phase(0, 0), 0, 0)]

  // Grouping of the samples, one sample at a time.
  function Grouped(r: seq<Run>, x: Sample): seq<Run> {
    if r != [] && r[|r| - 1][0].phase == x.phase
    then r[..|r| - 1] + [r[|r| - 1] + [x]]
    else r + [[x]]
  }

  function Runs(s: seq<Sample>): seq<Run> {
    if s == [] then [] else Grouped(Runs(s[..|s| - 1]), s[|s| - 1])
  }

  lemma RunsMore(s: seq<Sample>, x: Sample)
    ensures Runs(s + [x]) == Grouped(Runs(s), x)
  {
    assert (s + [x])[..|s|] == s;
  }

  function Squares(run: seq<Sample>): (q: seq<nat>)
    ensures |q| == |run|
  {
    seq(|run|, i requires 0 <= i < |run| => run[i].diff * run[i].diff)
  }

  function Total(s: seq<nat>): nat {
    if s == [] then 0 else Total(s[..|s| - 1]) + s[|s| - 1]
  }

  // The deviation is the square root of sum / count; it is kept as this exact fraction.
  datatype MeanSquare = MeanSquare(sum: nat, count: nat)
  datatype DeviationStats = DeviationStats(phase: Phase, firstTimeStamp: uint64, deviation: MeanSquare)

  function StatsOf(run: Run): DeviationStats {
    DeviationStats(run[0].phase, run[0].timeStamp, MeanSquare(Total(Squares(run)), |run|))
  }

  function StatsOfRuns(r: seq<Run>): (stats: seq<DeviationStats>)
    ensures |stats| == |r|
  {
    seq(|r|, i requires 0 <= i < |r| => StatsOf(r[i]))
  }

  ghost function Stats(h: History, d: uint64): seq<DeviationStats> {
    StatsOfRuns(Runs(Samples(h, d)))
  }

  // ----- the grouping is the one into maximal runs of one phase -----

  function Flatten(r: seq<Run>): seq<Sample> {
    if r == [] then [] else Flatten(r[..|r| - 1]) + r[|r| - 1]
  }

  ghost predicate SamePhase(run: Run) {
    forall i, j :: 0 <= i < j < |run| ==> run[i].phase == run[j].phase
  }

  // r cuts s into consecutive non-empty pieces, each of one phase, no two neighbours of the same phase.
  ghost predicate MaximalRuns(s: seq<Sample>, r: seq<Run>) {
    && Flatten(r) == s
    && (forall i :: 0 <= i < |r| ==> SamePhase(r[i]))
    && (forall i, j :: 0 <= i < j < |r| && j == i + 1 ==> r[i][0].phase != r[j][0].phase)
  }

  lemma FlattenSnoc(r: seq<Run>, run: Run)
    ensures Flatten(r + [run]) == Flatten(r) + run
  {
    assert (r + [run])[..|r|] == r;
  }

  lemma GroupedFlatten(r: seq<Run>, x: Sample)
    ensures Flatten(Grouped(r, x)) == Flatten(r) + [x]
  {
    if r != [] && r[|r| - 1][0].phase == x.phase {
      FlattenSnoc(r[..|r| - 1], r[|r| - 1] + [x]);
    } else {
      FlattenSnoc(r, [x]);
    }
  }

  lemma GroupedMaximal(s: seq<Sample>, r: seq<Run>, x: Sample)
    requires MaximalRuns(s, r)
    ensures MaximalRuns(s + [x], Grouped(r, x))
  {
    GroupedFlatten(r, x);
    var q := Grouped(r, x);
    assert SamePhase(q[|q| - 1]);
  }

  lemma {:induction false} RunsAreMaximal(s: seq<Sample>)
    ensures MaximalRuns(s, Runs(s))
  {
    if s != [] {
      RunsAreMaximal(s[..|s| - 1]);
      GroupedMaximal(s[..|s| - 1], Runs(s[..|s| - 1]), s[|s| - 1]);
      assert s[..|s| - 1] + [s[|s| - 1]] == s;
    }
  }

  // The last sample of s can be taken off its run.
  lemma UngroupLast(s: seq<Sample>, r: seq<Run>) returns (q: seq<Run>)
    requires MaximalRuns(s, r) && r != []
    ensures s != [] && MaximalRuns(s[..|s| - 1], q) && r == Grouped(q, s[|s| - 1])
  {
    var init, last := r[..|r| - 1], r[|r| - 1];
    assert s == Flatten(init) + last;
    if |last| == 1 {
      q := init;
      assert last == [s[|s| - 1]];
      assert r == init + [last];
    } else {
      q := init + [last[..|last| - 1]];
      FlattenSnoc(init, last[..|last| - 1]);
      assert forall i :: 0 <= i < |init| ==> q[i] == r[i];
      assert q[..|q| - 1] == init;
      assert last == q[|q| - 1] + [last[|last| - 1]];
      assert r == init + [last];
    }
  }

  // ... and there is only one such grouping.
  lemma {:induction false} MaximalRunsUnique(s: seq<Sample>, r: seq<Run>)
    requires MaximalRuns(s, r)
    ensures r == Runs(s)
    decreases |s|
  {
    if r != [] {
      var q := UngroupLast(s, r);
      MaximalRunsUnique(s[..|s| - 1], q);
    }
  }

  // ----- how the history grows -----

  lemma Snoc(h: History, e: Event)
    ensures (h + [e])[..|h|] == h && (h + [e])[|h|] == e
    ensures forall d: uint64, t: uint64 :: Seen(h + [e], d, t) <==>
              Seen(h, d, t) || (e.Measured? && e.device == d && t <= e.timeStamp)
  {
    forall d: uint64, t: uint64
      ensures Seen(h + [e], d, t) <==> Seen(h, d, t) || (e.Measured? && e.device == d && t <= e.timeStamp)
    {
      if Seen(h, d, t) {
        var i :| 0 <= i < |h| && h[i].Measured? && h[i].device == d && t <= h[i].timeStamp;
        assert (h + [e])[i] == h[i];
      }
      if e.Measured? && e.device == d && t <= e.timeStamp {
        assert (h + [e])[|h|] == e;
      }
    }
  }

  lemma SamplesSnoc(h: History, e: Event)
    requires e.Measured?
    ensures Samples(h + [e], e.device) == Samples(h, e.device) +
              match InForce(h, e.device, e.timeStamp)
              case None => []
              case Some(p) => [Sample(p, e.timeStamp, p.value - e.value)]
  {
    Snoc(h, e);
  }

  // Two histories that nothing addressed to device d can tell apart, now or later.
  ghost predicate SameView(h: History, k: History, d: uint64) {
    && LatestPlan(h, d) == LatestPlan(k, d)
    && (forall t :: Seen(h, d, t) <==> Seen(k, d, t))
    && Replies(h, d) == Replies(k, d)
    && Samples(h, d) == Samples(k, d)
  }

  ghost predicate SameEffect(e: Event, f: Event) {
    e == f || (e.Planned? && f.Planned? && e.device == f.device && e.installed == f.installed)
  }

  lemma SameViewSnoc(h: History, k: History, e: Event, f: Event, d: uint64)
    requires SameView(h, k, d) && SameEffect(e, f)
    ensures SameView(h + [e], k + [f], d)
  {
    Snoc(h, e);
    Snoc(k, f);
  }

  lemma OtherDevice(h: History, e: Event, d: uint64)
    requires e.device != d
    ensures SameView(h + [e], h, d)
  {
    Snoc(h, e);
  }

  lemma {:induction false} SameViewAppend(h: History, k: History, b: History, d: uint64)
    requires SameView(h, k, d)
    ensures SameView(h + b, k + b, d)
    decreases |b|
  {
    hide SameView;
    if b == [] {
      assert h + b == h && k + b == k;
    } else {
      var h', k' := h + [b[0]], k + [b[0]];
      assert SameView(h', k', d) by {
        SameViewSnoc(h, k, b[0], b[0], d);
      }
      assert h' + b[1..] == h + b && k' + b[1..] == k + b;
      SameViewAppend(h', k', b[1..], d);
    }
  }

  lemma SameViewReply(h: History, k: History, d: uint64)
    requires SameView(h, k, d)
    ensures forall t, m :: Reply(h, d, t, m) == Reply(k, d, t, m)
    ensures Stats(h, d) == Stats(k, d)
  {
  }

  // ----- devices do not influence each other -----

  function OwnCalls(h: History, d: uint64): History {
    if h == [] then []
    else if h[|h| - 1].device == d then OwnCalls(h[..|h| - 1], d) + [h[|h| - 1]]
    else OwnCalls(h[..|h| - 1], d)
  }

  lemma {:induction false} DeviceIsolation(h: History, d: uint64)
    ensures SameView(h, OwnCalls(h, d), d)
  {
    hide SameView;
    if h == [] {
      NothingSeen(d);
    } else {
      var pre, e := h[..|h| - 1], h[|h| - 1];
      DeviceIsolation(pre, d);
      assert h == pre + [e];
      if e.device == d {
        SameViewSnoc(pre, OwnCalls(pre, d), e, e, d);
      } else {
        OtherDevice(pre, e, d);
        SameViewTrans(h, pre, OwnCalls(pre, d), d);
      }
    }
  }

  lemma SameViewTrans(h: History, k: History, l: History, d: uint64)
    requires SameView(h, k, d) && SameView(k, l, d)
    ensures SameView(h, l, d)
  {
  }

  // A device's replies and statistics in an interleaved run are those of its own calls alone.
  lemma IsolatedRepliesAndStats(h: History, k: History, d: uint64)
    requires OwnCalls(h, d) == OwnCalls(k, d)
    ensures Replies(h, d) == Replies(k, d) && Stats(h, d) == Stats(k, d)
    ensures forall t, m :: Reply(h, d, t, m) == Reply(k, d, t, m)
  {
    DeviceIsolation(h, d);
    DeviceIsolation(k, d);
    SameViewReply(h, k, d);
  }

  // Calls for different devices commute, whatever follows and whichever device looks.
  lemma CallsCommute(a: History, e: Event, f: Event, b: History, d: uint64)
    requires e.device != f.device
    ensures Replies(a + [e, f] + b, d) == Replies(a + [f, e] + b, d)
    ensures Stats(a + [e, f] + b, d) == Stats(a + [f, e] + b, d)
  {
    assert a + [e, f] == a + [e] + [f] && a + [f, e] == a + [f] + [e];
    if e.device == d {
      OtherDevice(a + [e], f, d);
      OtherDevice(a, f, d);
      SameViewSnoc(a + [f], a, e, e, d);
    } else {
      OtherDevice(a, e, d);
      OtherDevice(a + [f], e, d);
      SameViewSnoc(a + [e], a, f, f, d);
    }
    SameViewAppend(a + [e, f], a + [f, e], b, d);
    SameViewReply(a + [e, f] + b, a + [f, e] + b, d);
  }

  // ----- plans as sets of phases -----

  // k makes the same calls as h, except that its plans may list their phases in another order.
  ghost predicate SameUpToPlanOrder(h: History, k: History) {
    && |h| == |k|
    && forall i :: 0 <= i < |h| ==>
         h[i] == k[i] ||
         (h[i].Planned? && k[i].Planned? && h[i].device == k[i].device &&
          DistinctTimes(h[i].submitted) && multiset(h[i].submitted) == multiset(k[i].submitted))
  }

  lemma {:induction false} PlanOrderIrrelevant(h: History, k: History, d: uint64)
    requires WellFormed(h) && WellFormed(k) && SameUpToPlanOrder(h, k)
    ensures SameView(h, k, d)
  {
    hide SameView;
    if h == [] {
      NothingSeen(d);
    } else {
      var n := |h| - 1;
      PlanOrderIrrelevant(h[..n], k[..n], d);
      if h[n] != k[n] {
        PermutationKeepsDistinctTimes(h[n].submitted, h[n].installed);
        InstalledOrderUnique(h[n].installed, k[n].installed);
      }
      SameViewSnoc(h[..n], k[..n], h[n], k[n], d);
      assert h == h[..n] + [h[n]] && k == k[..n] + [k[n]];
    }
  }

  lemma NothingSeen(d: uint64)
    ensures SameView([], [], d)
  {
  }

  // Submitting the plan already in force once more, in any order, changes nothing afterwards.
  lemma ResubmissionIrrelevant(a: History, e: Event, b: History, d: uint64)
    requires e.Planned? && WellFormed(a + [e])
    requires DistinctTimes(LatestPlan(a, e.device)) && multiset(e.submitted) == multiset(LatestPlan(a, e.device))
    ensures SameView(a + [e] + b, a + b, d)
  {
    hide *;
    ReinstalledPlan(a, e);
    SamePlanAgain(a, e, d);
    SameViewAppend(a + [e], a, b, d);
  }

  lemma SamePlanAgain(a: History, e: Event, d: uint64)
    requires e.Planned? && e.installed == LatestPlan(a, e.device)
    ensures SameView(a + [e], a, d)
  {
    Snoc(a, e);
  }

  lemma ReinstalledPlan(a: History, e: Event)
    requires e.Planned? && WellFormed(a + [e])
    requires DistinctTimes(LatestPlan(a, e.device)) && multiset(e.submitted) == multiset(LatestPlan(a, e.device))
    ensures e.installed == LatestPlan(a, e.device)
  {
    var p := LatestPlan(a, e.device);
    forall i | 0 <= i < |a| && a[i].Planned? ensures Installs(a[i].submitted, a[i].installed) {
      assert (a + [e])[i] == a[i];
    }
    LatestPlanSorted(a, e.device);
    hide LatestPlan, WellFormed;
    LastInstalled(a, e);
    InstalledOrderUnique(p, e.installed);
  }

  lemma {:induction false} LatestPlanSorted(h: History, d: uint64)
    requires WellFormed(h)
    ensures Sorted(LatestPlan(h, d))
  {
    if h != [] {
      LatestPlanSorted(h[..|h| - 1], d);
    }
  }

  lemma LastInstalled(a: History, e: Event)
    requires e.Planned? && WellFormed(a + [e])
    ensures Installs(e.submitted, e.installed)
  {
    assert (a + [e])[|a|] == e;
  }

  // ----- time order of the statistics -----

  lemma {:induction false} SamplesIncrease(h: History, d: uint64)
    ensures forall i :: 0 <= i < |Samples(h, d)| ==> Seen(h, d, Samples(h, d)[i].timeStamp)
    ensures forall i, j :: 0 <= i < j < |Samples(h, d)| ==> Samples(h, d)[i].timeStamp < Samples(h, d)[j].timeStamp
  {
    if h != [] {
      var pre, e := h[..|h| - 1], h[|h| - 1];
      assert h == pre + [e];
      Snoc(pre, e);
      SamplesIncrease(pre, d);
      forall i | 0 <= i < |Samples(pre, d)| && e.Measured? && InForce(pre, d, e.timeStamp).Some? && e.device == d
        ensures Samples(pre, d)[i].timeStamp < e.timeStamp
      {
        var j :| 0 <= j < |pre| && pre[j].Measured? && pre[j].device == d && Samples(pre, d)[i].timeStamp <= pre[j].timeStamp;
      }
    }
  }

  ghost predicate FirstsIncrease(r: seq<Run>) {
    forall i, j :: 0 <= i < j < |r| ==> r[i][0].timeStamp < r[j][0].timeStamp
  }

  lemma GroupedIncrease(r: seq<Run>, x: Sample)
    requires FirstsIncrease(r) && forall i :: 0 <= i < |r| ==> r[i][0].timeStamp < x.timeStamp
    ensures FirstsIncrease(Grouped(r, x))
    ensures forall i :: 0 <= i < |Grouped(r, x)| ==> Grouped(r, x)[i][0].timeStamp <= x.timeStamp
  {
    var q := Grouped(r, x);
    assert forall i :: 0 <= i < |r| ==> q[i][0] == r[i][0];
  }

  lemma {:induction false} RunsIncrease(s: seq<Sample>)
    requires forall i, j :: 0 <= i < j < |s| ==> s[i].timeStamp < s[j].timeStamp
    ensures FirstsIncrease(Runs(s))
    ensures forall i :: 0 <= i < |Runs(s)| ==> Runs(s)[i][0].timeStamp <= s[|s| - 1].timeStamp
  {
    if s != [] {
      RunsIncrease(s[..|s| - 1]);
      GroupedIncrease(Runs(s[..|s| - 1]), s[|s| - 1]);
    }
  }

  lemma FirstTimeStampsIncrease(h: History, d: uint64)
    ensures forall i, j :: 0 <= i < j < |Stats(h, d)| ==> Stats(h, d)[i].firstTimeStamp < Stats(h, d)[j].firstTimeStamp
  {
    SamplesIncrease(h, d);
    RunsIncrease(Samples(h, d));
  }

  // A call answered with an error, and a new plan, leave the statistics of every device alone.
  lemma ErrorsAndPlansKeepStats(h: History, e: Event, d: uint64)
    requires e.Measured? ==> Reply(h, e.device, e.timeStamp, e.value).MessageError?
    ensures Stats(h + [e], d) == Stats(h, d)
  {
    hide Samples, Seen, LatestPlan, Runs;
    NoNewSample(h, e, d);
  }

  lemma NoNewSample(h: History, e: Event, d: uint64)
    requires e.Measured? ==> InForce(h, e.device, e.timeStamp).None?
    ensures Samples(h + [e], d) == Samples(h, d)
  {
    hide InForce;
    assert (h + [e])[..|h|] == h;
  }

  // ----- the size of a correction -----

  // The command carries the whole correction exactly when it fits the message's signed octet.
  lemma CommandIsCorrectionIff(h: History, d: uint64, t: uint64, m: uint8)
    requires InForce(h, d, t).Some?
    ensures Reply(h, d, t, m).MessageCommand?
    ensures Reply(h, d, t, m).command == InForce(h, d, t).value.value - m <==>
            -128 <= InForce(h, d, t).value.value - m < 128
  {
  }

  // ----- plans with repeated time stamps -----

  lemma ReplyUnderNewPlan(h: History, d: uint64, p: seq<Phase>, r: seq<Phase>, t: uint64, m: uint8)
    requires !Seen(h, d, t) && Installs(p, r)
    ensures Reply(h + [Planned(d, p, r)], d, t, m) ==
            if p == [] then MessageError(NoSchedule)
            else match Current(r, t)
              case None => MessageError(NoTimestamp)
              case Some(x) => MessageCommand(ToInt8(x.value - m))
  {
    Snoc(h, Planned(d, p, r));
    SameSize(p, r);
    hide LastStarted;
  }

  lemma CommandsDiffer(a: uint8, b: uint8, m: uint8)
    ensures ToInt8(a - m) == ToInt8(b - m) ==> a == b
  {
  }

  // The reply under a newly set plan does not depend on what the unstable sort makes of the plan exactly
  // when the phases of the submitted plan that started last agree.
  lemma ReplyDeterminedIff(h: History, d: uint64, p: seq<Phase>, t: uint64, m: uint8)
    requires !Seen(h, d, t)
    ensures NoConflictAt(p, t) <==>
            forall r1, r2 :: Installs(p, r1) && Installs(p, r2) ==>
              Reply(h + [Planned(d, p, r1)], d, t, m) == Reply(h + [Planned(d, p, r2)], d, t, m)
  {
    hide Current, Reply;
    if NoConflictAt(p, t) {
      CurrentDeterminedIff(p, t);
      forall r1, r2 | Installs(p, r1) && Installs(p, r2)
        ensures Reply(h + [Planned(d, p, r1)], d, t, m) == Reply(h + [Planned(d, p, r2)], d, t, m)
      {
        ReplyUnderNewPlan(h, d, p, r1, t, m);
        ReplyUnderNewPlan(h, d, p, r2, t, m);
      }
    } else {
      var i, j :| 0 <= i < |p| && 0 <= j < |p| && StartedLast(p, t, i) && StartedLast(p, t, j) && p[i] != p[j];
      var r1 := AnyOfTheLastCanWin(p, t, i);
      var r2 := AnyOfTheLastCanWin(p, t, j);
      ReplyUnderNewPlan(h, d, p, r1, t, m);
      ReplyUnderNewPlan(h, d, p, r2, t, m);
      CommandsDiffer(p[i].value, p[j].value, m);
    }
  }

  // Two phases of one time stamp: after either legal outcome of the sort the device is told something else.
  lemma TiedPlanExample(d: uint64)
    ensures var p := [Phase(5, 1), Phase(5, 2)];
      && Installs(p, p) && Installs(p, [p[1], p[0]]) && !NoConflictAt(p, 5)
      && Reply([Planned(d, p, p)], d, 5, 0) == MessageCommand(2)
      && Reply([Planned(d, p, [p[1], p[0]])], d, 5, 0) == MessageCommand(1)
  {
    var p := [Phase(5, 1), Phase(5, 2)];
    assert multiset([p[1], p[0]]) == multiset(p);
    ReplyUnderNewPlan([], d, p, p, 5, 0);
    ReplyUnderNewPlan([], d, p, [p[1], p[0]], 5, 0);
    assert [] + [Planned(d, p, p)] == [Planned(d, p, p)];
    assert [] + [Planned(d, p, [p[1], p[0]])] == [Planned(d, p, [p[1], p[0]])];
    assert StartedLast(p, 5, 0) && StartedLast(p, 5, 1);
  }

  // With plan and meterage in the documented range from 0 to 100 it always fits.
  lemma DocumentedRangeFits(h: History, d: uint64, t: uint64, m: uint8)
    requires InForce(h, d, t).Some? && InForce(h, d, t).value.value <= 100 && m <= 100
    ensures Reply(h, d, t, m) == MessageCommand(InForce(h, d, t).value.value - m)
  {
    CommandIsCorrectionIff(h, d, t, m);
  }

  // A correction by 255 is sent as one by -1.
  lemma WrappedCommandExample(d: uint64)
    ensures var p := [Phase(0, 255)];
      InForce([Planned(d, p, p)], d, 0) == Some(p[0]) && Reply([Planned(d, p, p)], d, 0, 0) == MessageCommand(-1)
  {
    var p := [Phase(0, 255)];
    assert LastStarted(p, 0) == 0;
  }

  // ----- the documented rule of obsolescence -----

  // Call i was a meterage of device d that was not itself obsolete.
  ghost predicate AcceptedAt(h: History, d: uint64, i: int)
    requires 0 <= i < |h|
  {
    h[i].Measured? && h[i].device == d && !Seen(h[..i], d, h[i].timeStamp)
  }

  // A meterage with a larger time stamp has been accepted from the device.
  ghost predicate Overtaken(h: History, d: uint64, t: uint64) {
    exists i :: 0 <= i < |h| && AcceptedAt(h, d, i) && t < h[i].timeStamp
  }

  // t is the largest time stamp of the device so far.
  ghost predicate Latest(h: History, d: uint64, t: uint64) {
    Seen(h, d, t) && forall u: uint64 :: t < u ==> !Seen(h, d, u)
  }

  ghost function DocumentedReply(h: History, d: uint64, t: uint64, m: uint8): Message {
    if Overtaken(h, d, t) then MessageError(Obsolete)
    else if LatestPlan(h, d) == [] then MessageError(NoSchedule)
    else match Current(LatestPlan(h, d), t)
      case None => MessageError(NoTimestamp)
      case Some(p) => MessageCommand(ToInt8(p.value - m))
  }

  // Of meterages that reach past t one was accepted: the first of them.
  lemma {:induction false} FirstOvertakes(h: History, d: uint64, t: uint64)
    ensures Overtaken(h, d, t) <==> exists i :: 0 <= i < |h| && h[i].Measured? && h[i].device == d && t < h[i].timeStamp
    decreases |h|
  {
    if i :| 0 <= i < |h| && h[i].Measured? && h[i].device == d && t < h[i].timeStamp {
      if Seen(h[..i], d, h[i].timeStamp) {
        var j :| 0 <= j < i && h[..i][j].Measured? && h[..i][j].device == d && h[i].timeStamp <= h[..i][j].timeStamp;
        FirstOvertakes(h[..i], d, t);
        var k :| 0 <= k < i && AcceptedAt(h[..i], d, k) && t < h[..i][k].timeStamp;
        assert h[..i][..k] == h[..k];
        assert AcceptedAt(h, d, k);
      } else {
        assert AcceptedAt(h, d, i);
      }
    }
  }

  // The code answers as documented exactly if the time stamp is not the largest one seen from the device,
  // that is, not equal to the entry of the last time stamp.
  lemma ObsoleteAsDocumentedIff(h: History, d: uint64, t: uint64, m: uint8)
    ensures (Seen(h, d, t) <==> Overtaken(h, d, t)) <==> !Latest(h, d, t)
    ensures Reply(h, d, t, m) == DocumentedReply(h, d, t, m) <==> !Latest(h, d, t)
  {
    hide LatestPlan, Current, Overtaken;
    FirstOvertakes(h, d, t);
    if Seen(h, d, t) && !Latest(h, d, t) {
      var u: uint64 :| t < u && Seen(h, d, u);
    }
    if i :| 0 <= i < |h| && h[i].Measured? && h[i].device == d && t < h[i].timeStamp {
      assert Seen(h, d, h[i].timeStamp);
    }
  }

  // The same time stamp twice: obsolete by the code, not by the documentation.
  lemma RepeatedTimeStampExample(d: uint64)
    ensures var h := [Measured(d, 5, 1)];
      && Latest(h, d, 5) && Reply(h, d, 5, 1) == MessageError(Obsolete)
      && DocumentedReply(h, d, 5, 1) == MessageError(NoSchedule)
  {
    var h := [Measured(d, 5, 1)];
    assert h[0].timeStamp == 5;
    assert LatestPlan(h, d) == LatestPlan(h[..0], d) == [];
  }

  // ----- what the sums add up -----

  lemma {:induction false} TotalConcat(a: seq<nat>, b: seq<nat>)
    ensures Total(a + b) == Total(a) + Total(b)
    decreases |b|
  {
    if b == [] {
      assert a + b == a;
    } else {
      TotalConcat(a, b[..|b| - 1]);
      assert (a + b)[..|a + b| - 1] == a + b[..|b| - 1];
    }
  }

  lemma TotalOfOne(x: nat)
    ensures Total([x]) == x
  {
    assert [x][..0] == [];
  }

  // One more deviation from phase p: added to the last entry if that is of the same phase, else a new entry.
  function Adding(s: seq<DeviationStats>, p: Phase, t: uint64, diff: int): seq<DeviationStats> {
    if s != [] && s[|s| - 1].phase == p then
      var last := s[|s| - 1];
      var sum, count := last.deviation.sum + diff * diff, last.deviation.count + 1;
      s[..|s| - 1] + [DeviationStats(p, last.firstTimeStamp, MeanSquare(sum, count))]
    else s + [DeviationStats(p, t, MeanSquare(diff * diff, 1))]
  }

  lemma GroupedStats(r: seq<Run>, x: Sample)
    ensures StatsOfRuns(Grouped(r, x)) == Adding(StatsOfRuns(r), x.phase, x.timeStamp, x.diff)
  {
    hide Total;
    TotalOfOne(x.diff * x.diff);
    if r != [] && r[|r| - 1][0].phase == x.phase {
      var run := r[|r| - 1];
      assert Squares(run + [x]) == Squares(run) + [x.diff * x.diff];
      TotalConcat(Squares(run), [x.diff * x.diff]);
    } else {
      assert Squares([x]) == [x.diff * x.diff];
    }
  }

  // A meterage answered with a command toward phase p adds its squared deviation to the last entry, if that
  // is of the same phase, or makes a new entry; one answered with an error adds nothing.
  lemma StatsGrow(h: History, d: uint64, t: uint64, m: uint8)
    ensures Stats(h + [Measured(d, t, m)], d) ==
            match InForce(h, d, t)
            case None => Stats(h, d)
            case Some(p) => Adding(Stats(h, d), p, t, p.value as int - m)
  {
    hide InForce, Total, StatsOfRuns, Adding, Samples, Runs, Grouped;
    SamplesSnoc(h, Measured(d, t, m));
    match InForce(h, d, t)
    case None => assert Samples(h, d) + [] == Samples(h, d);
    case Some(p) =>
      var x := Sample(p, t, p.value - m);
      RunsMore(Samples(h, d), x);
      GroupedStats(Runs(Samples(h, d)), x);
  }

  lemma NoStatsAtFirst(d: uint64)
    ensures Stats([], d) == []
  {
  }

  // Entry i is about the i-th maximal run of samples.
  lemma StatsEntry(h: History, d: uint64, i: nat)
    requires i < |Stats(h, d)|
    ensures MaximalRuns(Samples(h, d), Runs(Samples(h, d))) && |Stats(h, d)| == |Runs(Samples(h, d))|
    ensures var run, e := Runs(Samples(h, d))[i], Stats(h, d)[i];
      && e.phase == run[0].phase && e.firstTimeStamp == run[0].timeStamp && e.deviation.count == |run|
      && forall n :: 0 < n <= |run| ==> Total(Squares(run[..n])) == Total(Squares(run[..n - 1])) + run[n - 1].diff * run[n - 1].diff
  {
    RunsAreMaximal(Samples(h, d));
    var run := Runs(Samples(h, d))[i];
    forall n | 0 < n <= |run|
      ensures Total(Squares(run[..n])) == Total(Squares(run[..n - 1])) + run[n - 1].diff * run[n - 1].diff
    {
      assert Squares(run[..n]) == Squares(run[..n - 1]) + [run[n - 1].diff * run[n - 1].diff];
      TotalConcat(Squares(run[..n - 1]), [run[n - 1].diff * run[n - 1].diff]);
      TotalOfOne(run[n - 1].diff * run[n - 1].diff);
    }
  }

  // ----- the reply, call by call -----

  // Call i is the last one that set a plan for device d.
  ghost predicate LastPlanCall(h: History, d: uint64, i: int) {
    && 0 <= i < |h| && h[i].Planned? && h[i].device == d
    && forall j :: i < j < |h| ==> !(h[j].Planned? && h[j].device == d)
  }

  lemma {:induction false} LatestPlanSays(h: History, d: uint64)
    ensures forall i :: LastPlanCall(h, d, i) ==> LatestPlan(h, d) == h[i].installed
    ensures (forall i :: 0 <= i < |h| ==> !(h[i].Planned? && h[i].device == d)) ==> LatestPlan(h, d) == []
    ensures LatestPlan(h, d) != [] ==> exists i :: LastPlanCall(h, d, i)
    decreases |h|
  {
    if h != [] {
      var pre, e := h[..|h| - 1], h[|h| - 1];
      if e.Planned? && e.device == d {
        assert LastPlanCall(h, d, |h| - 1);
      } else {
        hide LastPlanCall;
        LatestPlanSays(pre, d);
        SameLastPlanCall(h, d);
        if LatestPlan(h, d) != [] {
          var i :| LastPlanCall(pre, d, i);
          assert LastPlanCall(h, d, i);
        }
      }
    }
  }

  lemma SameLastPlanCall(h: History, d: uint64)
    requires h != [] && !(h[|h| - 1].Planned? && h[|h| - 1].device == d)
    ensures forall i :: LastPlanCall(h, d, i) <==> LastPlanCall(h[..|h| - 1], d, i)
    ensures forall i :: LastPlanCall(h, d, i) ==> 0 <= i < |h| - 1 && h[..|h| - 1][i] == h[i]
  {
  }

  // The reply in terms of the calls alone: the meterages of the device so far and the phases last submitted.
  lemma ReplySays(h: History, d: uint64, t: uint64, m: uint8)
    requires WellFormed(h)
    ensures Reply(h, d, t, m) == MessageError(Obsolete) <==> Reached(h, d, t)
    ensures Reply(h, d, t, m) == MessageError(NoSchedule) <==>
              !Reached(h, d, t) && forall i :: LastPlanCall(h, d, i) ==> h[i].submitted == []
    ensures Reply(h, d, t, m) == MessageError(NoTimestamp) <==>
              !Reached(h, d, t) && exists i :: LastPlanCall(h, d, i) && h[i].submitted != [] && AllLater(h[i].submitted, t)
    ensures Reply(h, d, t, m).MessageCommand? <==>
              !Reached(h, d, t) && exists i :: LastPlanCall(h, d, i) && !AllLater(h[i].submitted, t)
    ensures Reply(h, d, t, m).MessageCommand? ==>
              exists i, k :: LastPlanCall(h, d, i) && Corrects(h[i].submitted, t, m, k, Reply(h, d, t, m).command)
  {
    LatestPlanSays(h, d);
    hide LatestPlan;
    if i :| LastPlanCall(h, d, i) {
      PlanSays(h[i].submitted, h[i].installed, t, m);
      OneLastPlanCall(h, d, i);
    }
  }

  // Some meterage of the device so far has this time stamp or a larger one.
  ghost predicate Reached(h: History, d: uint64, t: uint64) {
    !forall i :: 0 <= i < |h| && h[i].Measured? && h[i].device == d ==> h[i].timeStamp < t
  }

  ghost predicate AllLater(p: seq<Phase>, t: uint64) {
    forall k :: 0 <= k < |p| ==> t < p[k].timeStamp
  }

  // Phase k is one that started last, and c the octet of the correction toward it.
  ghost predicate Corrects(p: seq<Phase>, t: uint64, m: uint8, k: int, c: int8) {
    0 <= k < |p| && StartedLast(p, t, k) && (c - (p[k].value as int - m)) % 0x100 == 0
  }

  lemma OneLastPlanCall(h: History, d: uint64, i: int)
    requires LastPlanCall(h, d, i)
    ensures forall j :: LastPlanCall(h, d, j) ==> j == i
  {
  }

  lemma PlanSays(p: seq<Phase>, r: seq<Phase>, t: uint64, m: uint8)
    requires Installs(p, r)
    ensures p == [] <==> r == []
    ensures Current(r, t) == None <==> AllLater(p, t)
    ensures Current(r, t).Some? ==>
              var c := ToInt8(Current(r, t).value.value as int - m); exists k :: Corrects(p, t, m, k, c)
  {
    SameSize(p, r);
    NothingStarted(p, r, t);
    if Current(r, t).Some? {
      CurrentStartedLast(p, r, t);
      var k :| 0 <= k < |p| && StartedLast(p, t, k) && p[k] == Current(r, t).value;
      assert Corrects(p, t, m, k, ToInt8(p[k].value as int - m));
    }
  }
}
