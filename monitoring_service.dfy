/** The monitoring session of the monitoring service: a start and an end time and an active
    flag, and statistics counted over the stored contributions, restricted to the session's
    window while it is active. The contribution list is passed to the statistics in place of
    the call that loads it; starting and stopping the SMS and e-mail watchers is not part of
    this model. */
module MonitoringService {
  import opened Wrappers
  import opened Seqs
  import opened MessageParser
  import opened ContributionService

  datatype MonitoringStats = MonitoringStats(
    smsProcessed: nat,
    emailsProcessed: nat,
    successfulParsed: nat,
    failedParsed: nat)

  const NoStats: MonitoringStats := MonitoringStats(0, 0, 0, 0)

  /** What `getMonitoringTimeRange` returns; `None` is `null`. */
  datatype TimeRange = TimeRange(startTime: Option<int>, endTime: Option<int>)

  function FromSource(source: Source): Contribution -> bool {
    (c: Contribution) => c.source == source
  }

  /** The four counts over a contribution list. Every record came by SMS or by e-mail, so the
      first two counts share out the list; pending records are in neither of the last two. */
  function StatsOf(cs: seq<Contribution>): (r: MonitoringStats)
    ensures r.smsProcessed + r.emailsProcessed == |cs|
    ensures r.successfulParsed + r.failedParsed + |ContributionsByStatus(cs, Pending)| == |cs|
    ensures r.successfulParsed == |ContributionsByStatus(cs, Success)|
    ensures r.failedParsed == |ContributionsByStatus(cs, Failed)|
  {
    CountPartition(cs, FromSource(SMS), FromSource(Email));
    StatusPartition(cs);
    MonitoringStats(
      Count(cs, FromSource(SMS)),
      Count(cs, FromSource(Email)),
      Count(cs, HasStatus(Success)),
      Count(cs, HasStatus(Failed)))
  }

  /** A list that could not be loaded reads as empty, and then every count is zero. */
  lemma UnloadableGivesNoStats()
    ensures StatsOf([]) == NoStats
  {
  }

  /** Counting the list with one more record adds that record to its source's count and to
      its status's count. */
  lemma StatsAfterAdd(cs: seq<Contribution>, c: Contribution)
    ensures var a, b := StatsOf(cs), StatsOf(cs + [c]);
      b.smsProcessed == a.smsProcessed + (if c.source == SMS then 1 else 0) &&
      b.emailsProcessed == a.emailsProcessed + (if c.source == Email then 1 else 0) &&
      b.successfulParsed == a.successfulParsed + (if c.parseStatus == Success then 1 else 0) &&
      b.failedParsed == a.failedParsed + (if c.parseStatus == Failed then 1 else 0)
  {
    FilterAppend(cs, [c], FromSource(SMS));
    FilterAppend(cs, [c], FromSource(Email));
    FilterAppend(cs, [c], HasStatus(Success));
    FilterAppend(cs, [c], HasStatus(Failed));
  }

  /** The monitoring session. */
  class Monitor {
    var startTime: Option<int>
    var endTime: Option<int>
    var isActive: bool

    /** An active session always has both ends of its window. */
    predicate Valid()
      reads this
    {
      isActive ==> startTime.Some? && endTime.Some?
    }

    constructor ()
      ensures startTime == None && endTime == None && !isActive
      ensures Valid()
    {
      startTime := None;
      endTime := None;
      isActive := false;
    }

    /** `isMonitoringActive`: an active session has a full time range, and an inactive one
        counts every stored record. */
    function IsMonitoringActive(): (active: bool)
      reads this
      ensures Valid() && active ==>
                GetMonitoringTimeRange().startTime.Some? && GetMonitoringTimeRange().endTime.Some?
      ensures !active ==> forall cs :: GetStats(cs) == StatsOf(cs)
    {
      isActive
    }

    /** `getMonitoringTimeRange`: the window the statistics are restricted to while the
        session is active; `null` ends only while it is not. */
    function GetMonitoringTimeRange(): (r: TimeRange)
      reads this
      ensures Valid() && isActive ==> r.startTime.Some? && r.endTime.Some?
      ensures isActive && r.startTime.Some? && r.endTime.Some? ==>
                forall cs :: GetStats(cs) == StatsOf(ContributionsByDateRange(cs, r.startTime.value, r.endTime.value))
    {
      TimeRange(startTime, endTime)
    }

    /** `startMonitoring`: the window is stored and the session becomes active, so only records
        stored within it count from now on. */
    method StartMonitoring(start: int, end: int)
      modifies this
      ensures Valid() && IsMonitoringActive()
      ensures GetMonitoringTimeRange() == TimeRange(Some(start), Some(end))
      ensures forall cs :: GetStats(cs) == StatsOf(ContributionsByDateRange(cs, start, end))
    {
      startTime := Some(start);
      endTime := Some(end);
      isActive := true;
    }

    /** `stopMonitoring`: the session becomes inactive and keeps the window it had, and every
        stored record counts again. */
    method StopMonitoring()
      modifies this
      ensures Valid() && !IsMonitoringActive()
      ensures GetMonitoringTimeRange() == old(GetMonitoringTimeRange())
      ensures forall cs :: GetStats(cs) == StatsOf(cs)
    {
      isActive := false;
    }

    /** `getStats` over the loaded list `cs`: while the session is active with both times
        set, only records stored within its window count; otherwise all of them do. */
    function GetStats(cs: seq<Contribution>): (r: MonitoringStats)
      reads this
      ensures r.smsProcessed + r.emailsProcessed <= |cs|
      ensures r.successfulParsed + r.failedParsed <= r.smsProcessed + r.emailsProcessed
      ensures !isActive || startTime.None? || endTime.None? ==> r == StatsOf(cs)
      ensures isActive && startTime.Some? && endTime.Some? ==>
                r == StatsOf(ContributionsByDateRange(cs, startTime.value, endTime.value))
      ensures isActive && startTime.Some? && endTime.Some? && startTime.value > endTime.value ==>
                r == NoStats
    {
      if isActive && startTime.Some? && endTime.Some? then
        StatsOf(ContributionsByDateRange(cs, startTime.value, endTime.value))
      else
        StatsOf(cs)
    }
  }
}
