/** One tracker's lifetime as the updater at the end of the pipeline files it. */
module FiledLifetimes {
  import opened MonitorLifetimes
  import opened MonitorRuns
  import opened MonitorSpec
  import opened Pipeline
  import opened RelayTree
  import opened SeriesTimes
  import opened Stats
  import opened Trackers
  import opened WhisperLines
  import opened WhisperUpdater
  import opened WriterStream

  lemma LifetimeUuid(host: string, cycles: seq<Cycle>, b: nat, past: seq<Cycle>, l: Life)
    requires Lifetime(host, cycles, b, past, l) && GoodCycles(cycles)
    ensures GoodUuid(l.cur.uuid)
  {
    SnapshotLists(cycles[b], l.cur.id);
    LifetimeEnds(l.birth, SamplesOf(l.cur.id, past[b..]), DiskReadReq);
    assert GoodCycle(cycles[b]);
  }

  /** Everything m's monitor sent up to the end of past has reached node w. */
  ghost predicate AllArrived(t: Topology, steps: seq<Step>, w: nat, m: nat, host: string, past: seq<Cycle>) {
    Story(host, past).sent <= From(m, At(Exec(t, steps).rcv, w))
  }

  /** Without loss that only takes enough messages to have arrived. */
  lemma ArrivedInTime(t: Topology, steps: seq<Step>, fleet: map<nat, Config>, w: nat, m: nat, past: seq<Cycle>)
    requires Deployed(t, steps, fleet) && NoLoss(steps) && m in fleet && w != m && OnRoute(t, m, w)
    requires past <= fleet[m].cycles
    requires |Story(fleet[m].host, past).sent| <= |From(m, At(Exec(t, steps).rcv, w))|
    ensures AllArrived(t, steps, w, m, fleet[m].host, past)
  {
    var host, cycles, got := fleet[m].host, fleet[m].cycles, From(m, At(Exec(t, steps).rcv, w));
    ReceivedWithoutLoss(t, steps, fleet, w, m);
    PrefixSent(host, past, cycles);
    BothPrefixes(Story(host, past).sent, got, Run(host, cycles).sent);
  }

  lemma PrefixSent(host: string, past: seq<Cycle>, cycles: seq<Cycle>)
    requires past <= cycles
    ensures Story(host, past).sent <= Run(host, cycles).sent
  {
    RunIsStory(host, cycles);
    SentGrowing(host, cycles, |past|);
    assert cycles[..|past|] == past;
  }

  lemma BothPrefixes(a: seq<Message>, b: seq<Message>, all: seq<Message>)
    requires a <= all && b <= all && |a| <= |b|
    ensures a <= b
  {
    assert a == all[..|a|] && b == all[..|b|];
  }

  lemma SeriesThree(root: string, a: seq<Message>, b: seq<Message>, c: seq<Message>, h: string, uuid: string,
      metric: string)
    ensures MessagesSeries(root, a + b + c, h, uuid, metric)
         == MessagesSeries(root, a, h, uuid, metric) + MessagesSeries(root, b, h, uuid, metric)
            + MessagesSeries(root, c, h, uuid, metric)
  {
    SeriesConcat(root, a, b, h, uuid, metric);
    SeriesConcat(root, a + b, c, h, uuid, metric);
  }

  lemma Pieces(before: seq<Message>, now: seq<Message>, all: seq<Message>)
    requires before <= now <= all
    ensures all == before + now[|before|..] + all[|now|..]
  {
  }

  lemma PastSentBy(host: string, cycles: seq<Cycle>, past: seq<Cycle>, b: nat)
    requires GoodHost(host) && GoodCycles(cycles) && past <= cycles && b <= |past|
    ensures AllSentBy(host, SentSince(host, past, b))
  {
    forall i | 0 <= i < |past| ensures GoodCycle(past[i]) {
      assert past[i] == cycles[i];
    }
    StorySendsGood(host, past);
    SentGrowing(host, past, b);
    LaterSentBy(host, Story(host, past).sent, |Story(host, past[..b]).sent|);
  }

  lemma LaterSentBy(host: string, sent: seq<Message>, n: nat)
    requires AllSentBy(host, sent) && n <= |sent|
    ensures AllSentBy(host, sent[n..])
  {
    forall i | 0 <= i < |sent| - n ensures SentBy(host, sent[n..][i]) {
      assert SentBy(host, sent[i + n]);
    }
  }

  /** A lifetime's own points: those of the messages sent during it. */
  ghost function OwnPoints(root: string, host: string, past: seq<Cycle>, b: nat, uuid: string,
      metric: string): seq<Point>
    requires b <= |past|
  {
    MessagesSeries(root, SentSince(host, past, b), host, uuid, metric)
  }

  /** While no other tracker carries the UUID they are the tracker's outputs, one point per cycle. */
  lemma OwnReadings(root: string, host: string, cycles: seq<Cycle>, b: nat, past: seq<Cycle>, l: Life, metric: string)
    requires GoodHost(host) && GoodCycles(cycles)
    requires Lifetime(host, cycles, b, past, l) && Alone(host, past, b, l.cur.id, l.cur.uuid)
    ensures ValuesOf(OwnPoints(root, host, past, b, l.cur.uuid, metric))
         == ReadingsOf(RunTracker(l.birth, SamplesOf(l.cur.id, past[b..])).1, metric)
  {
    PastSentBy(host, cycles, past, b);
    SeriesReadings(root, host, SentSince(host, past, b), l.cur.uuid, metric);
    SoleLifetime(false, host, cycles, b, past, l, DiskReadReq);
  }

  lemma {:induction false} SoleCount(host: string, past: seq<Cycle>, b: nat, id: int)
    requires ListedSince(past, b, id) && !Story(host, past).halted
    ensures |EntriesOf(SentSince(host, past, b), ById(id))| == |past| - b
    decreases |past|
  {
    if b == |past| {
      assert past[..b] == past && SentSince(host, past, b) == [];
    } else {
      var s, c := Story(host, Most(past)), Last(past);
      ListedLess(past, b, id);
      SoleCount(host, Most(past), b, id);
      SentMore(host, past, b);
      SnapshotLists(c, id);
      PolledCoupled(s, c);
      CycleEntries(s, c, SentSince(host, Most(past), b), ById(id), id);
    }
  }

  /** A sole carrier's cycles file one point each. */
  lemma OwnCount(root: string, host: string, past: seq<Cycle>, b: nat, id: int, uuid: string, metric: string)
    requires GoodHost(host) && GoodCycles(past)
    requires ListedSince(past, b, id) && !Story(host, past).halted && Alone(host, past, b, id, uuid)
    requires b < |past| ==> id in past[b].births && past[b].births[id].uuid == uuid
    ensures |OwnPoints(root, host, past, b, uuid, metric)| == |past| - b
  {
    PastSentBy(host, past, past, b);
    SeriesReadings(root, host, SentSince(host, past, b), uuid, metric);
    SoleEntries(host, past, b, id, uuid);
    SoleCount(host, past, b, id);
    assert |ValuesOf(OwnPoints(root, host, past, b, uuid, metric))| == |OwnPoints(root, host, past, b, uuid, metric)|;
  }

  lemma OwnMore(root: string, host: string, past: seq<Cycle>, b: nat, uuid: string, metric: string)
    returns (more: seq<Point>)
    requires b < |past| && !Story(host, past).halted
    ensures OwnPoints(root, host, past, b, uuid, metric) == OwnPoints(root, host, Most(past), b, uuid, metric) + more
    ensures forall i :: 0 <= i < |more| ==> Near(more[i].time, Last(past).clock)
  {
    var s, c := Story(host, Most(past)), Last(past);
    var batch := BatchMessage(host, c.clock, Reported(s, c));
    SentMore(host, past, b);
    CycleSeries(root, SentSince(host, Most(past), b), Notified(s, c), batch, host, uuid, metric);
    CycleStamps(root, host, c, Reported(s, c), host, uuid, metric);
    more := MessageSeries(root, batch, host, uuid, metric);
  }

  /** Point i is from cycle b + i. */
  ghost predicate TimesOf(points: seq<Point>, past: seq<Cycle>, b: nat) {
    b + |points| == |past| && forall i :: 0 <= i < |points| ==> Near(points[i].time, past[b + i].clock)
  }

  lemma {:induction false} OwnTimes(root: string, host: string, past: seq<Cycle>, b: nat, id: int, uuid: string,
      metric: string)
    requires GoodHost(host) && GoodCycles(past)
    requires ListedSince(past, b, id) && !Story(host, past).halted && Alone(host, past, b, id, uuid)
    requires b < |past| ==> id in past[b].births && past[b].births[id].uuid == uuid
    ensures TimesOf(OwnPoints(root, host, past, b, uuid, metric), past, b)
    decreases |past|
  {
    OwnCount(root, host, past, b, id, uuid, metric);
    if b < |past| {
      ListedLess(past, b, id);
      forall i | 0 <= i < |past| - 1 ensures GoodCycle(Most(past)[i]) {
        assert past[i] == Most(past)[i];
      }
      SentMore(host, past, b);
      OwnTimes(root, host, Most(past), b, id, uuid, metric);
      var more := OwnMore(root, host, past, b, uuid, metric);
      TimesMore(OwnPoints(root, host, Most(past), b, uuid, metric), more, past, b);
    }
  }

  lemma TimesMore(points: seq<Point>, more: seq<Point>, past: seq<Cycle>, b: nat)
    requires past != [] && TimesOf(points, Most(past), b) && |points + more| == |past| - b
    requires forall i :: 0 <= i < |more| ==> Near(more[i].time, Last(past).clock)
    ensures TimesOf(points + more, past, b)
  {
    forall i | 0 <= i < |points + more| ensures Near((points + more)[i].time, past[b + i].clock) {
      assert i < |points| ==> (points + more)[i] == points[i] && Most(past)[b + i] == past[b + i];
      assert i >= |points| ==> (points + more)[i] == more[0] && past[b + i] == Last(past);
    }
  }

  /** And the disk values among them add up to the movement of this one tracker's counter. */
  lemma OwnSum(exact: bool, root: string, host: string, cycles: seq<Cycle>, b: nat, past: seq<Cycle>, l: Life,
               k: Counter)
    requires GoodHost(host) && GoodCycles(cycles) && (k.DiskReadReq? || k.DiskWriteReq?)
    requires Lifetime(host, cycles, b, past, l) && Alone(host, past, b, l.cur.id, l.cur.uuid)
    requires exact ==> AllFit(l.birth, SamplesOf(l.cur.id, past[b..]), k)
    ensures Balanced(exact, ValueSum(OwnPoints(root, host, past, b, l.cur.uuid, MetricOf(k))), 0,
                     Gain(cycles[b].births[l.cur.id], l.cur.id, past[b..], k))
  {
    OwnReadings(root, host, cycles, b, past, l, MetricOf(k));
    MovedIsGain(cycles[b].births[l.cur.id], l.cur.id, past[b..], k);
    OutputsBalance(exact, l.birth, SamplesOf(l.cur.id, past[b..]),
                   OwnPoints(root, host, past, b, l.cur.uuid, MetricOf(k)), k);
  }

  lemma OutputsBalance(exact: bool, t: TrackerState, samples: seq<Sample>, points: seq<Point>, k: Counter)
    requires (k.DiskReadReq? || k.DiskWriteReq?) && (exact ==> AllFit(t, samples, k))
    requires ValuesOf(points) == ReadingsOf(RunTracker(t, samples).1, MetricOf(k))
    ensures Balanced(exact, ValueSum(points), 0, Moved(t, samples, k))
  {
    ValuesTotal(points, RunTracker(t, samples).1, k);
    DeltasTelescope(exact, t, samples, k);
    Balance(exact, ValueSum(points), 0, Total(RunTracker(t, samples).1, k), Moved(t, samples, k));
  }

  lemma LifetimeTimes(root: string, host: string, cycles: seq<Cycle>, b: nat, past: seq<Cycle>, l: Life, metric: string)
    requires GoodHost(host) && GoodCycles(cycles)
    requires Lifetime(host, cycles, b, past, l) && Alone(host, past, b, l.cur.id, l.cur.uuid)
    ensures TimesOf(OwnPoints(root, host, past, b, l.cur.uuid, metric), past, b)
  {
    forall i | 0 <= i < |past| ensures GoodCycle(past[i]) {
      assert past[i] == cycles[i];
    }
    LifetimeEnds(l.birth, SamplesOf(l.cur.id, past[b..]), DiskReadReq);
    OwnTimes(root, host, past, b, l.cur.id, l.cur.uuid, metric);
  }

  lemma FiledParts(t: Topology, steps: seq<Step>, fleet: map<nat, Config>, w: nat, m: nat, root: string,
                   b: nat, past: seq<Cycle>, uuid: string, metric: string)
    returns (late: seq<Point>)
    requires Deployed(t, steps, fleet) && m in fleet && w != m && GoodUuid(uuid) && IsMetric(metric)
    requires b <= |past| && AllArrived(t, steps, w, m, fleet[m].host, past)
    ensures FiledSeries(root, Exec(t, steps), w, fleet[m].host, uuid, metric)
         == MessagesSeries(root, Story(fleet[m].host, past[..b]).sent, fleet[m].host, uuid, metric)
            + OwnPoints(root, fleet[m].host, past, b, uuid, metric) + late
  {
    var host, got := fleet[m].host, From(m, At(Exec(t, steps).rcv, w));
    var before, now := Story(host, past[..b]).sent, Story(host, past).sent;
    FiledAt(t, steps, fleet, w, m, root, uuid, metric);
    SentGrowing(host, past, b);
    Pieces(before, now, got);
    SeriesThree(root, before, now[|before|..], got[|now|..], host, uuid, metric);
    late := MessagesSeries(root, got[|now|..], host, uuid, metric);
  }

  /** What a metric's file holds of a lifetime whose messages have arrived: after the points of everything sent
      before the tracker's construction come its own points, which while no other tracker carries the UUID are
      its outputs, one per cycle; then later ones. */
  lemma LifetimeFiled(t: Topology, steps: seq<Step>, fleet: map<nat, Config>, w: nat, m: nat, root: string,
                      b: nat, past: seq<Cycle>, l: Life, metric: string)
    returns (late: seq<Point>)
    requires Deployed(t, steps, fleet) && m in fleet && w != m && IsMetric(metric)
    requires Lifetime(fleet[m].host, fleet[m].cycles, b, past, l)
    requires Alone(fleet[m].host, past, b, l.cur.id, l.cur.uuid)
    requires AllArrived(t, steps, w, m, fleet[m].host, past)
    ensures FiledSeries(root, Exec(t, steps), w, fleet[m].host, l.cur.uuid, metric)
         == MessagesSeries(root, Story(fleet[m].host, past[..b]).sent, fleet[m].host, l.cur.uuid, metric)
            + OwnPoints(root, fleet[m].host, past, b, l.cur.uuid, metric) + late
    ensures ValuesOf(OwnPoints(root, fleet[m].host, past, b, l.cur.uuid, metric))
         == ReadingsOf(RunTracker(l.birth, SamplesOf(l.cur.id, past[b..])).1, metric)
    ensures TimesOf(OwnPoints(root, fleet[m].host, past, b, l.cur.uuid, metric), past, b)
  {
    LifetimeUuid(fleet[m].host, fleet[m].cycles, b, past, l);
    late := FiledParts(t, steps, fleet, w, m, root, b, past, l.cur.uuid, metric);
    OwnReadings(root, fleet[m].host, fleet[m].cycles, b, past, l, metric);
    LifetimeTimes(root, fleet[m].host, fleet[m].cycles, b, past, l, metric);
  }
}
