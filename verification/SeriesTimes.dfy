/** When filed points are from: their times, against the clock of the cycles that produced them. */
module SeriesTimes {
  import opened MonitorRuns
  import opened MonitorSpec
  import opened Numerals
  import opened Stats
  import opened Timespecs
  import opened WhisperUpdater
  import opened WriterStream

  /** The decoded time is the clock reading, rounded to six decimals of a second. */
  predicate Near(time: Num, clock: Timespec) {
    time.Finite? && -0.0000005 <= Value(time) - clock.Nanos() as real / 1000000000.0 <= 0.0000005
  }

  lemma ClockNear(clock: Timespec)
    ensures Near(Rounded(ToNum(ToReal(clock))), clock)
  {
    ToRealNanos(clock);
    FixedRoundTrip(ToNum(ToReal(clock)));
    assert Value(ToNum(ToReal(clock))) == ToReal(clock);
  }

  lemma {:induction false} BatchStamps(root: string, agg: AggregateStats, n: nat, h: string, uuid: string,
      metric: string)
    requires n <= |agg.domains|
    ensures forall i :: 0 <= i < |BatchSeries(root, agg, n, h, uuid, metric)| ==>
      BatchSeries(root, agg, n, h, uuid, metric)[i].time == Rounded(agg.tov)
  {
    if n > 0 {
      BatchStamps(root, agg, n - 1, h, uuid, metric);
    }
  }

  /** Every point of a cycle's batch has that cycle's time. */
  lemma CycleStamps(root: string, host: string, c: Cycle, entries: seq<DomainStats>, h: string, uuid: string,
      metric: string)
    ensures var points := MessageSeries(root, BatchMessage(host, c.clock, entries), h, uuid, metric);
      forall i :: 0 <= i < |points| ==> Near(points[i].time, c.clock)
  {
    var agg := BatchMessage(host, c.clock, entries).data.agg;
    BatchStamps(root, agg, |agg.domains|, h, uuid, metric);
    ClockNear(c.clock);
  }

  lemma {:induction false} NoticesSeries(root: string, notices: seq<Message>, h: string, uuid: string, metric: string)
    requires forall i :: 0 <= i < |notices| ==> notices[i].data.Notice?
    ensures MessagesSeries(root, notices, h, uuid, metric) == []
    decreases |notices|
  {
    if notices != [] {
      NoticesSeries(root, notices[..|notices| - 1], h, uuid, metric);
    }
  }

  /** A cycle's notices file nothing; its batch files what it carries. */
  lemma CycleSeries(root: string, before: seq<Message>, notices: seq<Message>, batch: Message, h: string,
      uuid: string, metric: string)
    requires forall i :: 0 <= i < |notices| ==> notices[i].data.Notice?
    ensures MessagesSeries(root, before + notices, h, uuid, metric) == MessagesSeries(root, before, h, uuid, metric)
    ensures MessagesSeries(root, before + notices + [batch], h, uuid, metric)
         == MessagesSeries(root, before, h, uuid, metric) + MessageSeries(root, batch, h, uuid, metric)
  {
    SeriesConcat(root, before, notices, h, uuid, metric);
    NoticesSeries(root, notices, h, uuid, metric);
    NothingMore(MessagesSeries(root, before, h, uuid, metric));
    SeriesConcat(root, before + notices, [batch], h, uuid, metric);
    SeriesOne(root, batch, h, uuid, metric);
  }

  ghost predicate Stamped(p: Point, cycles: seq<Cycle>) {
    exists i :: 0 <= i < |cycles| && Near(p.time, cycles[i].clock)
  }

  lemma StampedLater(p: Point, cycles: seq<Cycle>)
    requires cycles != [] && (Stamped(p, Most(cycles)) || Near(p.time, Last(cycles).clock))
    ensures Stamped(p, cycles)
  {
    if Stamped(p, Most(cycles)) {
      var i :| 0 <= i < |Most(cycles)| && Near(p.time, Most(cycles)[i].clock);
      assert Near(p.time, cycles[i].clock);
    }
  }

  /** Every point a run's messages carry has the time of one of its cycles. */
  lemma {:induction false} StoryStamped(root: string, host: string, cycles: seq<Cycle>, h: string, uuid: string,
      metric: string, p: Point)
    requires p in MessagesSeries(root, Story(host, cycles).sent, h, uuid, metric)
    ensures Stamped(p, cycles)
    decreases |cycles|
  {
    if cycles != [] {
      var s, c := Story(host, Most(cycles)), Last(cycles);
      var batch := BatchMessage(s.host, c.clock, Reported(s, c));
      if s.halted || c.listing.CountFailed? {
        StoryStamped(root, host, Most(cycles), h, uuid, metric, p);
      } else {
        CycleSeries(root, s.sent, Notified(s, c), batch, h, uuid, metric);
        if p in MessagesSeries(root, s.sent, h, uuid, metric) {
          StoryStamped(root, host, Most(cycles), h, uuid, metric, p);
        } else {
          CycleStamps(root, s.host, c, Reported(s, c), h, uuid, metric);
        }
      }
      StampedLater(p, cycles);
    }
  }
}
