// The command center: an incremental implementation of the history functions, with a
// cursor into each device's plan, a last time stamp and running statistics.
module CommandCenters {
  import opened CTypes
  import opened Messages
  import opened Plans
  import opened Histories

  datatype ScheduleInfo = ScheduleInfo(phases: seq<Phase>, currentPhaseIndex: nat)
  datatype StatsInfo = StatsInfo(squareDiffs: seq<nat>, deviationStats: seq<DeviationStats>)

  const NO_SCHEDULE := ScheduleInfo([], 0)
  const NO_STATS := StatsInfo([], [])

  // ----- what one device's entries mean -----

  ghost predicate TracksTime(h: History, d: uint64, last: Option<uint64>) {
    forall t: uint64 :: Seen(h, d, t) <==> last.Some? && t <= last.value
  }

  ghost predicate CursorAt(info: ScheduleInfo, t: uint64) {
    info.currentPhaseIndex == 0 ||
    (info.currentPhaseIndex < |info.phases| && info.phases[info.currentPhaseIndex].timeStamp <= t)
  }

  // The cursor is 0 or sits on a phase that has started by the last accepted time stamp.
  ghost predicate TracksPlan(h: History, d: uint64, last: Option<uint64>, info: ScheduleInfo) {
    && info.phases == LatestPlan(h, d)
    && Sorted(info.phases)
    && (info.currentPhaseIndex == 0 || (last.Some? && CursorAt(info, last.value)))
  }

  // The buffer of squares belongs to the last run of samples.
  ghost predicate TracksRuns(r: seq<Run>, info: StatsInfo) {
    && info.deviationStats == StatsOfRuns(r)
    && (r != [] ==> info.squareDiffs == Squares(r[|r| - 1]))
  }

  ghost predicate Tracks(h: History, d: uint64, last: Option<uint64>, plan: ScheduleInfo, stats: StatsInfo) {
    TracksTime(h, d, last) && TracksPlan(h, d, last, plan) && TracksRuns(Runs(Samples(h, d)), stats)
  }

  lemma TracksOther(h: History, e: Event, d: uint64, last: Option<uint64>, plan: ScheduleInfo, stats: StatsInfo)
    requires Tracks(h, d, last, plan, stats) && e.device != d
    ensures Tracks(h + [e], d, last, plan, stats)
  {
    OtherDevice(h, e, d);
  }

  lemma TracksPlanned(h: History, e: Event, last: Option<uint64>, plan: ScheduleInfo, stats: StatsInfo)
    requires e.Planned? && Sorted(e.installed) && Tracks(h, e.device, last, plan, stats)
    ensures Tracks(h + [e], e.device, last, ScheduleInfo(e.installed, 0), stats)
  {
    Snoc(h, e);
  }

  lemma TracksRejected(h: History, e: Event, last: Option<uint64>, plan: ScheduleInfo, stats: StatsInfo)
    requires e.Measured? && Tracks(h, e.device, last, plan, stats)
    requires last.Some? && e.timeStamp <= last.value
    ensures Tracks(h + [e], e.device, last, plan, stats)
  {
    Snoc(h, e);
  }

  // The runs after a meterage: one more sample if it is answered with a command.
  ghost function NextRuns(h: History, e: Event): seq<Run>
    requires e.Measured?
  {
    var r := Runs(Samples(h, e.device));
    match InForce(h, e.device, e.timeStamp)
    case None => r
    case Some(p) => Grouped(r, Sample(p, e.timeStamp, p.value - e.value))
  }

  lemma RunsSnoc(h: History, e: Event)
    requires e.Measured?
    ensures Runs(Samples(h + [e], e.device)) == NextRuns(h, e)
  {
    SamplesSnoc(h, e);
    if InForce(h, e.device, e.timeStamp).Some? {
      hide Samples, InForce, Grouped;
      var p := InForce(h, e.device, e.timeStamp).value;
      RunsMore(Samples(h, e.device), Sample(p, e.timeStamp, p.value - e.value));
    }
  }

  lemma TracksAccepted(h: History, e: Event, last: Option<uint64>, plan: ScheduleInfo, stats: StatsInfo,
                       k: nat, stats': StatsInfo)
    requires e.Measured? && Tracks(h, e.device, last, plan, stats)
    requires last.Some? ==> last.value < e.timeStamp
    requires CursorAt(plan.(currentPhaseIndex := k), e.timeStamp)
    requires TracksRuns(NextRuns(h, e), stats')
    ensures Tracks(h + [e], e.device, Some(e.timeStamp), plan.(currentPhaseIndex := k), stats')
  {
    RunsSnoc(h, e);
    Snoc(h, e);
    assert LatestPlan(h + [e], e.device) == LatestPlan(h, e.device);
    assert TracksTime(h + [e], e.device, Some(e.timeStamp));
  }

  // A cursor reached from a valid one by skipping started phases and stopping before one that has not.
  lemma CursorIsLastStarted(p: seq<Phase>, t: uint64, k: nat)
    requires Sorted(p) && k < |p|
    requires k == 0 || p[k].timeStamp <= t
    requires k + 1 < |p| ==> t < p[k + 1].timeStamp
    ensures k == if LastStarted(p, t) < 0 then 0 else LastStarted(p, t)
    ensures Current(p, t) == if p[k].timeStamp <= t then Some(p[k]) else None
  {
  }

  // The statistics after one more command: a new entry, or the last one recomputed from the longer buffer.
  function Recorded(info: StatsInfo, phase: Phase, t: uint64, command: int): StatsInfo {
    var n := |info.deviationStats|;
    var same := n > 0 && info.deviationStats[n - 1].phase == phase;
    var squares := (if same then info.squareDiffs else []) + [command * command];
    var first := if same then info.deviationStats[n - 1].firstTimeStamp else t;
    StatsInfo(squares, (if same then info.deviationStats[..n - 1] else info.deviationStats) +
                       [DeviationStats(phase, first, MeanSquare(Total(squares), |squares|))])
  }

  lemma RecordedTracksRuns(r: seq<Run>, info: StatsInfo, x: Sample)
    requires TracksRuns(r, info)
    ensures TracksRuns(Grouped(r, x), Recorded(info, x.phase, x.timeStamp, x.diff))
  {
    var q := Grouped(r, x);
    assert Recorded(info, x.phase, x.timeStamp, x.diff).squareDiffs == Squares(q[|q| - 1]);
  }

  // ----- all devices -----

  function At<V>(m: map<uint64, V>, d: uint64, default: V): V {
    if d in m then m[d] else default
  }

  function LastOf(last: map<uint64, uint64>, d: uint64): Option<uint64> {
    if d in last then Some(last[d]) else None
  }

  // The three maps of the command center represent history h.
  ghost predicate Represents(h: History, last: map<uint64, uint64>,
                             plans: map<uint64, ScheduleInfo>, stats: map<uint64, StatsInfo>) {
    && WellFormed(h)
    && forall d: uint64 :: Tracks(h, d, LastOf(last, d), At(plans, d, NO_SCHEDULE), At(stats, d, NO_STATS))
  }

  // An event of one device, with new entries for that device only.
  lemma RepresentsNext(h: History, e: Event,
                       last: map<uint64, uint64>, plans: map<uint64, ScheduleInfo>, stats: map<uint64, StatsInfo>,
                       last': map<uint64, uint64>, plans': map<uint64, ScheduleInfo>, stats': map<uint64, StatsInfo>)
    requires Represents(h, last, plans, stats)
    requires e.Planned? ==> Installs(e.submitted, e.installed)
    requires forall x: uint64 :: x != e.device ==>
      LastOf(last', x) == LastOf(last, x) && At(plans', x, NO_SCHEDULE) == At(plans, x, NO_SCHEDULE) &&
      At(stats', x, NO_STATS) == At(stats, x, NO_STATS)
    requires Tracks(h + [e], e.device, LastOf(last', e.device), At(plans', e.device, NO_SCHEDULE), At(stats', e.device, NO_STATS))
    ensures Represents(h + [e], last', plans', stats')
  {
    forall x: uint64 ensures Tracks(h + [e], x, LastOf(last', x), At(plans', x, NO_SCHEDULE), At(stats', x, NO_STATS)) {
      if x != e.device {
        TracksOther(h, e, x, LastOf(last, x), At(plans, x, NO_SCHEDULE), At(stats, x, NO_STATS));
      }
    }
  }

  lemma RepresentsDevice(h: History, d: uint64, last: map<uint64, uint64>,
                         plans: map<uint64, ScheduleInfo>, stats: map<uint64, StatsInfo>)
    requires Represents(h, last, plans, stats)
    ensures forall t: uint64 :: Seen(h, d, t) <==> d in last && t <= last[d]
    ensures TracksPlan(h, d, LastOf(last, d), At(plans, d, NO_SCHEDULE))
    ensures TracksRuns(Runs(Samples(h, d)), At(stats, d, NO_STATS))
  {
    assert Tracks(h, d, LastOf(last, d), At(plans, d, NO_SCHEDULE), At(stats, d, NO_STATS));
  }

  // The cursor counts the iterations of the loop since the plan was set.
  ghost predicate CountsAdvances(advances: map<uint64, nat>, plans: map<uint64, ScheduleInfo>) {
    forall d: uint64 :: At(advances, d, 0) == At(plans, d, NO_SCHEDULE).currentPhaseIndex
  }

  lemma SameEntriesCountAdvances(advances: map<uint64, nat>, plans: map<uint64, ScheduleInfo>, plans': map<uint64, ScheduleInfo>)
    requires CountsAdvances(advances, plans)
    requires forall d: uint64 :: At(plans', d, NO_SCHEDULE) == At(plans, d, NO_SCHEDULE)
    ensures CountsAdvances(advances, plans')
  {
  }

  lemma AdvanceCounted(advances: map<uint64, nat>, plans: map<uint64, ScheduleInfo>, d: uint64)
    requires CountsAdvances(advances, plans) && d in plans
    ensures CountsAdvances(advances[d := At(advances, d, 0) + 1],
              plans[d := plans[d].(currentPhaseIndex := plans[d].currentPhaseIndex + 1)])
  {
    var advances', plans' := advances[d := At(advances, d, 0) + 1],
      plans[d := plans[d].(currentPhaseIndex := plans[d].currentPhaseIndex + 1)];
    forall x: uint64 ensures At(advances', x, 0) == At(plans', x, NO_SCHEDULE).currentPhaseIndex {
      assert At(advances, x, 0) == At(plans, x, NO_SCHEDULE).currentPhaseIndex;
    }
  }

  lemma RepresentsPlanned(h: History, e: Event,
                          last: map<uint64, uint64>, plans: map<uint64, ScheduleInfo>, stats: map<uint64, StatsInfo>)
    requires Represents(h, last, plans, stats)
    requires e.Planned? && Installs(e.submitted, e.installed)
    ensures Represents(h + [e], last, plans[e.device := ScheduleInfo(e.installed, 0)], stats)
  {
    TracksPlanned(h, e, LastOf(last, e.device), At(plans, e.device, NO_SCHEDULE), At(stats, e.device, NO_STATS));
    RepresentsNext(h, e, last, plans, stats, last, plans[e.device := ScheduleInfo(e.installed, 0)], stats);
  }

  lemma RepresentsAccepted(h: History, e: Event,
                           last: map<uint64, uint64>, plans: map<uint64, ScheduleInfo>, stats: map<uint64, StatsInfo>,
                           k: nat, stats': StatsInfo)
    requires Represents(h, last, plans, stats) && e.Measured?
    requires e.device in last ==> last[e.device] < e.timeStamp
    requires CursorAt(At(plans, e.device, NO_SCHEDULE).(currentPhaseIndex := k), e.timeStamp)
    requires TracksRuns(NextRuns(h, e), stats')
    ensures Represents(h + [e], last[e.device := e.timeStamp],
              plans[e.device := At(plans, e.device, NO_SCHEDULE).(currentPhaseIndex := k)], stats[e.device := stats'])
  {
    hide Tracks;
    var d := e.device;
    TracksAccepted(h, e, LastOf(last, d), At(plans, d, NO_SCHEDULE), At(stats, d, NO_STATS), k, stats');
    RepresentsNext(h, e, last, plans, stats, last[d := e.timeStamp],
      plans[d := At(plans, d, NO_SCHEDULE).(currentPhaseIndex := k)], stats[d := stats']);
  }

  lemma RepresentsRejected(h: History, e: Event,
                           last: map<uint64, uint64>, plans: map<uint64, ScheduleInfo>, stats: map<uint64, StatsInfo>)
    requires Represents(h, last, plans, stats) && e.Measured?
    requires e.device in last && e.timeStamp <= last[e.device]
    ensures Represents(h + [e], last, plans, stats)
    ensures Reply(h, e.device, e.timeStamp, e.value) == MessageError(Obsolete)
  {
    var d := e.device;
    TracksRejected(h, e, LastOf(last, d), At(plans, d, NO_SCHEDULE), At(stats, d, NO_STATS));
    RepresentsNext(h, e, last, plans, stats, last, plans, stats);
  }

  // What the part of process_meterage behind the time stamp filter does to the plans and the statistics.
  ghost predicate Answered(d: uint64, t: uint64, m: uint8, plans: map<uint64, ScheduleInfo>, stats: map<uint64, StatsInfo>,
                           plans': map<uint64, ScheduleInfo>, stats': map<uint64, StatsInfo>, reply: Message) {
    var plan := At(plans, d, NO_SCHEDULE);
    && d in plans' && plans' == plans[d := plan.(currentPhaseIndex := plans'[d].currentPhaseIndex)]
    && CursorAt(plans'[d], t)
    && match Current(plan.phases, t)
       case Some(p) =>
         && reply == MessageCommand(ToInt8(p.value - m))
         && stats' == stats[d := Recorded(At(stats, d, NO_STATS), p, t, p.value - m)]
       case None =>
         && reply == MessageError(if plan.phases == [] then NoSchedule else NoTimestamp)
         && stats' == stats[d := At(stats, d, NO_STATS)]
  }

  lemma AnsweredNextRuns(h: History, e: Event, info: StatsInfo)
    requires e.Measured? && TracksRuns(Runs(Samples(h, e.device)), info)
    ensures TracksRuns(NextRuns(h, e),
              match InForce(h, e.device, e.timeStamp)
              case None => info
              case Some(p) => Recorded(info, p, e.timeStamp, p.value - e.value))
  {
    hide Samples, Runs, Grouped, Recorded, TracksRuns, InForce;
    if InForce(h, e.device, e.timeStamp).Some? {
      var p := InForce(h, e.device, e.timeStamp).value;
      RecordedTracksRuns(Runs(Samples(h, e.device)), info, Sample(p, e.timeStamp, p.value - e.value));
    }
  }

  lemma RepresentsAnswered(h: History, e: Event, last: map<uint64, uint64>,
                           plans: map<uint64, ScheduleInfo>, stats: map<uint64, StatsInfo>,
                           plans': map<uint64, ScheduleInfo>, stats': map<uint64, StatsInfo>, reply: Message)
    requires Represents(h, last, plans, stats) && e.Measured?
    requires e.device in last ==> last[e.device] < e.timeStamp
    requires Answered(e.device, e.timeStamp, e.value, plans, stats, plans', stats', reply)
    ensures Represents(h + [e], last[e.device := e.timeStamp], plans', stats')
    ensures reply == Reply(h, e.device, e.timeStamp, e.value)
  {
    hide TracksRuns, Runs, Samples, Recorded, LastStarted, LatestPlan, NextRuns, Represents;
    var d := e.device;
    RepresentsDevice(h, d, last, plans, stats);
    AnsweredNextRuns(h, e, At(stats, d, NO_STATS));
    RepresentsAccepted(h, e, last, plans, stats, plans'[d].currentPhaseIndex, stats'[d]);
  }

  lemma RepresentsCursor(h: History, d: uint64, t: uint64, last: map<uint64, uint64>,
                         plans: map<uint64, ScheduleInfo>, stats: map<uint64, StatsInfo>)
    requires Represents(h, last, plans, stats)
    requires d in last ==> last[d] < t
    ensures Sorted(At(plans, d, NO_SCHEDULE).phases) && CursorAt(At(plans, d, NO_SCHEDULE), t)
  {
    RepresentsDevice(h, d, last, plans, stats);
  }

  class CommandCenter {
    var scheduleInfo: map<uint64, ScheduleInfo>
    var statsInfo: map<uint64, StatsInfo>
    var lastTimeStamp: map<uint64, uint64>

    // All calls so far, and the cursor movements since a device's plan was set.
    ghost var history: History
    ghost var advances: map<uint64, nat>

    ghost predicate Valid()
      reads this
    {
      && Represents(history, lastTimeStamp, scheduleInfo, statsInfo)
      && CountsAdvances(advances, scheduleInfo)
    }

    constructor ()
      ensures Valid() && history == []
    {
      scheduleInfo, statsInfo, lastTimeStamp := map[], map[], map[];
      history, advances := [], map[];
    }

    method SetSchedule(d: uint64, schedule: seq<Phase>)
      requires Valid()
      modifies this
      ensures Valid()
      ensures d in scheduleInfo && history == old(history) + [Planned(d, schedule, scheduleInfo[d].phases)]
      ensures At(advances, d, 0) == 0
    {
      scheduleInfo := scheduleInfo[d := NO_SCHEDULE];
      var sorted := SortPhases(schedule);
      scheduleInfo := scheduleInfo[d := scheduleInfo[d].(phases := sorted)];
      advances := advances[d := 0];
      ghost var e := Planned(d, schedule, sorted);
      history := history + [e];
      RepresentsPlanned(old(history), e, lastTimeStamp, old(scheduleInfo), statsInfo);
    }

    // The answer is what the callback receives, with the same device id, in its one call.
    method ProcessMeterage(d: uint64, t: uint64, m: uint8) returns (reply: Message)
      requires Valid()
      modifies this
      ensures Valid()
      ensures history == old(history) + [Measured(d, t, m)]
      ensures reply == Reply(old(history), d, t, m)
    {
      hide Represents, Answered, CountsAdvances, Reply, Sorted;
      ghost var h, e := history, Measured(d, t, m);
      history := history + [e];
      if d in lastTimeStamp && lastTimeStamp[d] >= t {
        RepresentsRejected(h, e, lastTimeStamp, scheduleInfo, statsInfo);
        return MessageError(Obsolete);
      }
      RepresentsCursor(h, d, t, lastTimeStamp, scheduleInfo, statsInfo);
      lastTimeStamp := lastTimeStamp[d := t];
      reply := Answer(d, t, m);
      RepresentsAnswered(h, e, old(lastTimeStamp), old(scheduleInfo), old(statsInfo), scheduleInfo, statsInfo, reply);
    }

    // The part of process_meterage behind the time stamp filter.
    method Answer(d: uint64, t: uint64, m: uint8) returns (reply: Message)
      requires Sorted(At(scheduleInfo, d, NO_SCHEDULE).phases) && CursorAt(At(scheduleInfo, d, NO_SCHEDULE), t)
      requires CountsAdvances(advances, scheduleInfo)
      modifies this`scheduleInfo, this`statsInfo, this`advances
      ensures Answered(d, t, m, old(scheduleInfo), old(statsInfo), scheduleInfo, statsInfo, reply)
      ensures CountsAdvances(advances, scheduleInfo)
    {
      hide LastStarted, Recorded, CountsAdvances;
      LookUp(d);
      if scheduleInfo[d].phases == [] {
        return MessageError(NoSchedule);
      }
      AdvanceCursor(d, t);
      var phases, k := scheduleInfo[d].phases, scheduleInfo[d].currentPhaseIndex;
      var currentPhase := phases[k];
      CursorIsLastStarted(phases, t, k);
      if currentPhase.timeStamp > t {
        return MessageError(NoTimestamp);
      }
      var command := currentPhase.value - m;
      RecordDeviation(d, currentPhase, t, command);
      return MessageCommand(ToInt8(command));
    }

    // Looking for the entries of a device makes them.
    method LookUp(d: uint64)
      requires CountsAdvances(advances, scheduleInfo)
      modifies this`scheduleInfo, this`statsInfo
      ensures scheduleInfo == old(scheduleInfo)[d := At(old(scheduleInfo), d, NO_SCHEDULE)]
      ensures statsInfo == old(statsInfo)[d := At(old(statsInfo), d, NO_STATS)]
      ensures CountsAdvances(advances, scheduleInfo)
    {
      hide CountsAdvances;
      if d !in scheduleInfo {
        scheduleInfo := scheduleInfo[d := NO_SCHEDULE];
      }
      if d !in statsInfo {
        statsInfo := statsInfo[d := NO_STATS];
      }
      SameEntriesCountAdvances(advances, old(scheduleInfo), scheduleInfo);
    }

    // The loop of process_meterage; every iteration is counted in advances.
    method AdvanceCursor(d: uint64, t: uint64)
      requires d in scheduleInfo && scheduleInfo[d].phases != [] && CursorAt(scheduleInfo[d], t)
      requires CountsAdvances(advances, scheduleInfo)
      modifies this`scheduleInfo, this`advances
      ensures CountsAdvances(advances, scheduleInfo)
      ensures d in scheduleInfo && CursorAt(scheduleInfo[d], t)
      ensures var k := scheduleInfo[d].currentPhaseIndex;
              && scheduleInfo == old(scheduleInfo)[d := old(scheduleInfo[d]).(currentPhaseIndex := k)]
              && k < |scheduleInfo[d].phases|
              && (k + 1 < |scheduleInfo[d].phases| ==> t < scheduleInfo[d].phases[k + 1].timeStamp)
    {
      while scheduleInfo[d].currentPhaseIndex + 1 < |scheduleInfo[d].phases| &&
            scheduleInfo[d].phases[scheduleInfo[d].currentPhaseIndex + 1].timeStamp <= t
        invariant d in scheduleInfo && CursorAt(scheduleInfo[d], t)
        invariant scheduleInfo ==
                  old(scheduleInfo)[d := old(scheduleInfo[d]).(currentPhaseIndex := scheduleInfo[d].currentPhaseIndex)]
        invariant CountsAdvances(advances, scheduleInfo)
        decreases |scheduleInfo[d].phases| - scheduleInfo[d].currentPhaseIndex
      {
        AdvanceCounted(advances, scheduleInfo, d);
        scheduleInfo := scheduleInfo[d := scheduleInfo[d].(currentPhaseIndex := scheduleInfo[d].currentPhaseIndex + 1)];
        advances := advances[d := At(advances, d, 0) + 1];
      }
    }

    method RecordDeviation(d: uint64, currentPhase: Phase, t: uint64, command: int)
      requires d in statsInfo
      modifies this`statsInfo
      ensures d in statsInfo && statsInfo == old(statsInfo)[d := Recorded(old(statsInfo[d]), currentPhase, t, command)]
    {
      var info := statsInfo[d];
      if info.deviationStats == []
         || info.deviationStats[|info.deviationStats| - 1].phase.timeStamp != currentPhase.timeStamp
         || info.deviationStats[|info.deviationStats| - 1].phase.value != currentPhase.value
      {
        info := StatsInfo([], info.deviationStats + [DeviationStats(currentPhase, t, MeanSquare(0, 1))]);
      }
      info := info.(squareDiffs := info.squareDiffs + [command * command]);
      var sum := Accumulate(info.squareDiffs);
      var last := |info.deviationStats| - 1;
      var entry := info.deviationStats[last].(deviation := MeanSquare(sum, |info.squareDiffs|));
      info := info.(deviationStats := info.deviationStats[last := entry]);
      statsInfo := statsInfo[d := info];
      assert info == Recorded(old(statsInfo[d]), currentPhase, t, command);
    }

    // The statistics of a device; asking for an unknown device creates its empty entry.
    method Statistics(d: uint64) returns (stats: seq<DeviationStats>)
      requires Valid()
      modifies this`statsInfo
      ensures Valid()
      ensures stats == Stats(history, d)
    {
      RepresentsDevice(history, d, lastTimeStamp, scheduleInfo, statsInfo);
      if d !in statsInfo {
        statsInfo := statsInfo[d := NO_STATS];
      }
      stats := statsInfo[d].deviationStats;
      assert forall x: uint64 :: At(statsInfo, x, NO_STATS) == At(old(statsInfo), x, NO_STATS);
    }
  }

  // Stands for std::accumulate.
  method Accumulate(s: seq<nat>) returns (sum: nat)
    ensures sum == Total(s)
  {
    sum := 0;
    for i := 0 to |s|
      invariant sum == Total(s[..i])
    {
      assert s[..i + 1][..i] == s[..i];
      sum := sum + s[i];
    }
    assert s[..|s|] == s;
  }

  // Between two plans the cursor of a device moves fewer times than its plan has phases.
  lemma CursorCost(c: CommandCenter, d: uint64)
    requires c.Valid()
    ensures LatestPlan(c.history, d) != [] ==> At(c.advances, d, 0) <= |LatestPlan(c.history, d)| - 1
    ensures LatestPlan(c.history, d) == [] ==> At(c.advances, d, 0) == 0
  {
    RepresentsDevice(c.history, d, c.lastTimeStamp, c.scheduleInfo, c.statsInfo);
  }

  // The case in which the code departs from the documented rule of obsolescence is the one in which
  // the time stamp equals the device's entry of the last time stamp.
  lemma LatestIsLastTimeStamp(c: CommandCenter, d: uint64, t: uint64)
    requires c.Valid()
    ensures Latest(c.history, d, t) <==> d in c.lastTimeStamp && c.lastTimeStamp[d] == t
  {
    RepresentsDevice(c.history, d, c.lastTimeStamp, c.scheduleInfo, c.statsInfo);
    if d in c.lastTimeStamp {
      assert Seen(c.history, d, c.lastTimeStamp[d]);
    }
  }

  // ----- one run of the command center, in numbers -----

  // The history so far: the latest plan of device d, no meterage at or after time t, and these statistics.
  ghost predicate Given(h: History, d: uint64, plan: seq<Phase>, t: int, stats: seq<DeviationStats>) {
    LatestPlan(h, d) == plan && (forall u: uint64 :: t <= u ==> !Seen(h, d, u)) && Stats(h, d) == stats
  }

  lemma PlanGiven(d: uint64, p: seq<Phase>, r: seq<Phase>)
    requires Installs(p, r) && Sorted(p) && DistinctTimes(p)
    ensures Given([Planned(d, p, r)], d, p, 0, [])
  {
    InstalledOrderUnique(p, r);
    var h := [Planned(d, p, r)];
    assert h[..0] == [] && h == [] + h;
    ErrorsAndPlansKeepStats([], Planned(d, p, r), d);
    NoStatsAtFirst(d);
  }

  lemma NextMeterage(h: History, d: uint64, plan: seq<Phase>, t: uint64, m: uint8, k: nat, stats: seq<DeviationStats>)
    requires Given(h, d, plan, t, stats) && k < |plan| && k == LastStarted(plan, t)
    ensures Reply(h, d, t, m) == MessageCommand(ToInt8(plan[k].value as int - m))
    ensures Given(h + [Measured(d, t, m)], d, plan, t + 1, Adding(stats, plan[k], t, plan[k].value as int - m))
  {
    Snoc(h, Measured(d, t, m));
    StatsGrow(h, d, t, m);
    hide Stats, Adding, LastStarted;
  }

  method Feed(c: CommandCenter, d: uint64, t: uint64, m: uint8, k: nat, ghost plan: seq<Phase>,
              ghost stats: seq<DeviationStats>) returns (reply: Message)
    requires c.Valid() && Given(c.history, d, plan, t, stats) && k < |plan| && k == LastStarted(plan, t)
    modifies c
    ensures c.Valid() && reply == MessageCommand(ToInt8(plan[k].value as int - m))
    ensures Given(c.history, d, plan, t + 1, Adding(stats, plan[k], t, plan[k].value as int - m))
  {
    hide CommandCenter.Valid, Given, Adding, LastStarted, Reply;
    NextMeterage(c.history, d, plan, t, m, k, stats);
    reply := c.ProcessMeterage(d, t, m);
  }

  // Three meterages from time t while phase k is current.
  method FeedThree(c: CommandCenter, d: uint64, t: uint64, m: seq<uint8>, k: nat, ghost plan: seq<Phase>,
                   ghost stats: seq<DeviationStats>) returns (replies: seq<Message>)
    requires c.Valid() && Given(c.history, d, plan, t, stats) && |m| == 3 && k < |plan|
    requires t < 0xFFFF_FFFF_FFFF_FFFE
    requires k == LastStarted(plan, t) == LastStarted(plan, t + 1) == LastStarted(plan, t + 2)
    modifies c
    ensures c.Valid()
    ensures replies == [MessageCommand(ToInt8(plan[k].value as int - m[0])),
                        MessageCommand(ToInt8(plan[k].value as int - m[1])),
                        MessageCommand(ToInt8(plan[k].value as int - m[2]))]
    ensures Given(c.history, d, plan, t + 3,
              Adding(Adding(Adding(stats, plan[k], t, plan[k].value as int - m[0]),
                plan[k], t + 1, plan[k].value as int - m[1]), plan[k], t + 2, plan[k].value as int - m[2]))
  {
    hide CommandCenter.Valid, Given, Adding, LastStarted, ToInt8;
    var a := Feed(c, d, t, m[0], k, plan, stats);
    ghost var s := Adding(stats, plan[k], t, plan[k].value as int - m[0]);
    var b := Feed(c, d, t + 1, m[1], k, plan, s);
    s := Adding(s, plan[k], t + 1, plan[k].value as int - m[1]);
    var e := Feed(c, d, t + 2, m[2], k, plan, s);
    replies := [a, b, e];
  }

  // Phases of 50 from time 0 and of 90 from time 3, against 100, 0, 100 and 0, 50, 100: the corrections, and
  // deviations of 50 and of the root of 9800 / 3.
  method DeviationExample(d: uint64) returns (replies: seq<Message>, stats: seq<DeviationStats>)
    ensures replies == [MessageCommand(-50), MessageCommand(50), MessageCommand(-50),
                        MessageCommand(90), MessageCommand(40), MessageCommand(-10)]
    ensures stats == [DeviationStats(Phase(0, 50), 0, MeanSquare(7500, 3)), DeviationStats(Phase(3, 90), 3, MeanSquare(9800, 3))]
  {
    hide CommandCenter.Valid, Given, Adding, LastStarted, Stats;
    var p := [Phase(0, 50), Phase(3, 90)];
    var c := new CommandCenter();
    c.SetSchedule(d, p);
    ScheduleGiven(c, d, p);
    ExampleStarts(p);
    ExampleSums(p[0], p[1]);
    var r := FeedThree(c, d, 0, [100, 0, 100], 0, p, []);
    ghost var first := [DeviationStats(p[0], 0, MeanSquare(7500, 3))];
    var q := FeedThree(c, d, 3, [0, 50, 100], 1, p, first);
    replies := r + q;
    SameStats(c.history, d, p, 6, first + [DeviationStats(p[1], 3, MeanSquare(9800, 3))]);
    stats := c.Statistics(d);
  }

  lemma ScheduleGiven(c: CommandCenter, d: uint64, p: seq<Phase>)
    requires c.Valid() && d in c.scheduleInfo && c.history == [Planned(d, p, c.scheduleInfo[d].phases)]
    requires Sorted(p) && DistinctTimes(p)
    ensures Given(c.history, d, p, 0, [])
  {
    hide Given;
    assert WellFormed(c.history);
    assert c.history[0] == Planned(d, p, c.scheduleInfo[d].phases);
    PlanGiven(d, p, c.scheduleInfo[d].phases);
  }

  lemma ExampleSums(p: Phase, q: Phase)
    requires p != q
    ensures Adding([], p, 0, -50) == [DeviationStats(p, 0, MeanSquare(2500, 1))]
    ensures Adding([DeviationStats(p, 0, MeanSquare(2500, 1))], p, 1, 50) == [DeviationStats(p, 0, MeanSquare(5000, 2))]
    ensures Adding([DeviationStats(p, 0, MeanSquare(5000, 2))], p, 2, -50) == [DeviationStats(p, 0, MeanSquare(7500, 3))]
    ensures var first := [DeviationStats(p, 0, MeanSquare(7500, 3))];
      && Adding(first, q, 3, 90) == first + [DeviationStats(q, 3, MeanSquare(8100, 1))]
      && Adding(first + [DeviationStats(q, 3, MeanSquare(8100, 1))], q, 4, 40) ==
         first + [DeviationStats(q, 3, MeanSquare(9700, 2))]
      && Adding(first + [DeviationStats(q, 3, MeanSquare(9700, 2))], q, 5, -10) ==
         first + [DeviationStats(q, 3, MeanSquare(9800, 3))]
  {
  }

  lemma ExampleStarts(p: seq<Phase>)
    requires p == [Phase(0, 50), Phase(3, 90)]
    ensures LastStarted(p, 0) == LastStarted(p, 1) == LastStarted(p, 2) == 0
    ensures LastStarted(p, 3) == LastStarted(p, 4) == LastStarted(p, 5) == 1
  {
  }

  lemma SameStats(h: History, d: uint64, plan: seq<Phase>, t: int, stats: seq<DeviationStats>)
    requires Given(h, d, plan, t, stats)
    ensures Stats(h, d) == stats
  {
  }
}
