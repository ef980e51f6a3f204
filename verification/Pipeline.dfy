/** The whole pipeline: what monitors observe, through relays and the pipe, to the metric store. */
module Pipeline {
  import opened MessageFrames
  import opened MonitorConservation
  import opened MonitorEvents
  import opened MonitorLifetimes
  import opened MonitorReports
  import opened MonitorRuns
  import opened MonitorSpec
  import opened Numerals
  import opened OrderedSets
  import opened RelayTree
  import opened Sequences
  import opened SeriesTimes
  import opened Stats
  import opened Text
  import opened Timespecs
  import opened Trackers
  import opened WhisperLines
  import opened WhisperUpdater
  import opened WriterStream

  // ---------- runs send good messages ----------

  /** The environment answers in UUID text, and its clock in seconds that fit a 64-bit time_t. */
  ghost predicate GoodCycle(c: Cycle) {
    && (forall id | id in c.births && id in Snapshot(c) :: GoodUuid(c.births[id].uuid))
    && Bounded(ToNum(ToReal(c.clock)), TWO_64)
  }

  ghost predicate GoodCycles(cycles: seq<Cycle>) {
    forall i :: 0 <= i < |cycles| ==> GoodCycle(cycles[i])
  }

  /** A message this host's monitor may send. */
  ghost predicate SentBy(host: string, m: Message) {
    GoodMessage(m) && Subscribed(m.key) && (m.key != TERM_KEY ==> m.data.agg.hostname == host)
      && (m.key == TERM_KEY ==> m.data.Notice?)
  }

  ghost predicate AllSentBy(host: string, sent: seq<Message>) {
    forall i :: 0 <= i < |sent| ==> SentBy(host, sent[i])
  }

  ghost predicate GoodTrackers(trackers: map<int, Life>) {
    forall id | id in trackers :: GoodUuid(trackers[id].cur.uuid)
  }

  lemma NoticeSentBy(host: string, uuid: string)
    requires GoodHost(host) && GoodUuid(uuid)
    ensures SentBy(host, TermMessage(host, uuid))
  {
    NoNul();
    assert SpaceFree("servers.") && '\0' !in "servers.";
  }

  lemma BatchSentBy(host: string, c: Cycle, entries: seq<DomainStats>)
    requires GoodHost(host) && GoodCycle(c)
    requires forall i :: 0 <= i < |entries| ==> GoodEntry(entries[i])
    ensures SentBy(host, BatchMessage(host, c.clock, entries))
  {
    NoNul();
    BatchIsNoNotice(host, c, entries);
    assert |SERVERS_PREFIX + host| < 512;
    assert BatchMessage(host, c.clock, entries).key == SERVERS_PREFIX + host;
  }

  lemma PolledGood(s: MonState, c: Cycle)
    requires Coupled(s) && GoodTrackers(s.trackers) && GoodCycle(c)
    ensures GoodTrackers(Polled(s, c)) && GoodTrackers(Advanced(Polled(s, c), Polled(s, c).Keys, c))
  {
    assert forall id | id in Found(s, c) :: id in Come(s, c);
    forall id | id in Polled(s, c) ensures GoodUuid(Polled(s, c)[id].cur.uuid) {
      PolledUuid(s, c, id);
    }
  }

  lemma EntriesGood(trackers: map<int, Life>, ids: seq<int>, c: Cycle)
    requires (forall i :: 0 <= i < |ids| ==> ids[i] in trackers) && GoodTrackers(trackers)
    ensures forall i :: 0 <= i < |Entries(trackers, ids, c)| ==> GoodEntry(Entries(trackers, ids, c)[i])
  {
    forall i | 0 <= i < |ids| ensures GoodEntry(Entries(trackers, ids, c)[i]) {
      UtilisationBounded(trackers[ids[i]].cur, SampleOf(c, ids[i]));
    }
  }

  lemma CycleSendsGood(s: MonState, c: Cycle)
    requires Coupled(s) && !s.halted && GoodHost(s.host) && GoodTrackers(s.trackers) && GoodCycle(c)
    ensures AllSentBy(s.host, Notified(s, c))
    ensures SentBy(s.host, BatchMessage(s.host, c.clock, Reported(s, c)))
  {
    PolledGood(s, c);
    EntriesGood(Polled(s, c), Ascending(Polled(s, c).Keys), c);
    BatchSentBy(s.host, c, Reported(s, c));
    var gone := Ascending(Gone(s, c));
    forall i | 0 <= i < |gone| ensures SentBy(s.host, Notified(s, c)[i]) {
      NoticeSentBy(s.host, s.trackers[gone[i]].cur.uuid);
    }
  }

  lemma {:induction false} StorySendsGood(host: string, cycles: seq<Cycle>)
    requires GoodHost(host) && GoodCycles(cycles)
    ensures AllSentBy(host, Story(host, cycles).sent) && GoodTrackers(Story(host, cycles).trackers)
    decreases |cycles|
  {
    if cycles != [] {
      var s, c := Story(host, Most(cycles)), Last(cycles);
      StorySendsGood(host, Most(cycles));
      if !s.halted && !c.listing.CountFailed? {
        CycleKeepsGood(s, c);
      }
    }
  }

  lemma CycleKeepsGood(s: MonState, c: Cycle)
    requires Coupled(s) && !s.halted && !c.listing.CountFailed? && GoodHost(s.host) && GoodCycle(c)
    requires AllSentBy(s.host, s.sent) && GoodTrackers(s.trackers)
    ensures AllSentBy(s.host, CycleResult(s, c).sent) && GoodTrackers(CycleResult(s, c).trackers)
  {
    CycleSendsGood(s, c);
    PolledGood(s, c);
    AppendSentBy(s.host, s.sent, Notified(s, c));
    AppendSentBy(s.host, s.sent + Notified(s, c), [BatchMessage(s.host, c.clock, Reported(s, c))]);
  }

  lemma AppendSentBy(host: string, a: seq<Message>, b: seq<Message>)
    requires AllSentBy(host, a) && AllSentBy(host, b)
    ensures AllSentBy(host, a + b)
  {
    forall i | 0 <= i < |a + b| ensures SentBy(host, (a + b)[i]) {
      assert (a + b)[i] == if i < |a| then a[i] else b[i - |a|];
    }
  }

  /** Every message of a run prints without truncation, parses back, and is subscribed to. */
  lemma RunSendsGood(host: string, cycles: seq<Cycle>)
    requires GoodHost(host) && GoodCycles(cycles)
    ensures AllSentBy(host, Run(host, cycles).sent)
  {
    RunIsStory(host, cycles);
    StorySendsGood(host, cycles);
  }

  // ---------- the network between monitors and a node ----------

  datatype Config = Config(host: string, cycles: seq<Cycle>)

  /** Monitors with distinct good hosts, each publishing exactly what its run sends. */
  ghost predicate Deployed(t: Topology, steps: seq<Step>, fleet: map<nat, Config>) {
    && t.Valid() && fleet.Keys == t.monitors
    && (forall m | m in fleet :: GoodHost(fleet[m].host) && GoodCycles(fleet[m].cycles))
    && (forall m, m' | m in fleet && m' in fleet && m != m' :: fleet[m].host != fleet[m'].host)
    && (forall m | m in fleet :: Published(m, steps) <= Run(fleet[m].host, fleet[m].cycles).sent)
  }

  /** A packet carrying a message its origin may send. */
  ghost predicate Genuine(fleet: map<nat, Config>, p: Packet) {
    p.origin in fleet && SentBy(fleet[p.origin].host, p.msg)
  }

  ghost predicate AllGenuine(fleet: map<nat, Config>, ps: seq<Packet>) {
    forall i :: 0 <= i < |ps| ==> Genuine(fleet, ps[i])
  }

  ghost predicate GenuineNet(fleet: map<nat, Config>, s: Net) {
    && (forall n ::
      AllGenuine(fleet, At(s.sent, n)) && AllGenuine(fleet, At(s.chan, n)) && AllGenuine(fleet, At(s.rcv, n)))
    && (forall n :: AllGenuine(fleet, Held(s, n)))
  }

  lemma SendGenuine(t: Topology, fleet: map<nat, Config>, s: Net, k: nat, p: Packet)
    requires GenuineNet(fleet, s) && Genuine(fleet, p)
    ensures GenuineNet(fleet, Send(t, s, k, p))
  {
    var s' := Send(t, s, k, p);
    forall n ensures AllGenuine(fleet, At(s'.sent, n)) && AllGenuine(fleet, At(s'.chan, n))
      && AllGenuine(fleet, At(s'.rcv, n)) {
      assert AllGenuine(fleet, At(s.sent, n)) && AllGenuine(fleet, At(s.chan, n)) && AllGenuine(fleet, At(s.rcv, n));
    }
    forall n ensures AllGenuine(fleet, Held(s', n)) {
      assert AllGenuine(fleet, Held(s, n));
    }
  }

  lemma ReceiveGenuine(t: Topology, fleet: map<nat, Config>, s: Net, k: nat)
    requires GenuineNet(fleet, s) && Receivable(t, s, k)
    ensures GenuineNet(fleet, Apply(t, s, Receive(k)))
  {
    var s' := Apply(t, s, Receive(k));
    assert AllGenuine(fleet, At(s.chan, k));
    var p := At(s.chan, k)[0];
    ReceivedKey(p.msg);
    assert Genuine(fleet, Arrived(p));
    forall n ensures AllGenuine(fleet, At(s'.sent, n)) && AllGenuine(fleet, At(s'.chan, n))
      && AllGenuine(fleet, At(s'.rcv, n)) {
      assert AllGenuine(fleet, At(s.sent, n)) && AllGenuine(fleet, At(s.chan, n)) && AllGenuine(fleet, At(s.rcv, n));
    }
    forall n ensures AllGenuine(fleet, Held(s', n)) {
      assert AllGenuine(fleet, Held(s, n));
    }
  }

  lemma OtherGenuine(t: Topology, fleet: map<nat, Config>, s: Net, step: Step)
    requires GenuineNet(fleet, s) && (step.Drop? || step.Decode? || step.Crash?)
    ensures GenuineNet(fleet, Apply(t, s, step))
  {
    var s' := Apply(t, s, step);
    forall n ensures AllGenuine(fleet, At(s'.sent, n)) && AllGenuine(fleet, At(s'.chan, n))
      && AllGenuine(fleet, At(s'.rcv, n)) {
      assert AllGenuine(fleet, At(s.sent, n)) && AllGenuine(fleet, At(s.chan, n)) && AllGenuine(fleet, At(s.rcv, n));
    }
    forall n ensures AllGenuine(fleet, Held(s', n)) {
      assert AllGenuine(fleet, Held(s, n));
    }
  }

  lemma ForwardGenuine(t: Topology, fleet: map<nat, Config>, s: Net, k: nat)
    requires GenuineNet(fleet, s) && PhaseOf(s, k).Holding?
    ensures GenuineNet(fleet, Apply(t, s, Forward(k)))
  {
    var s', p := Apply(t, s, Forward(k)), PhaseOf(s, k).p;
    assert AllGenuine(fleet, Held(s, k)) && Held(s, k)[0] == p;
    SendGenuine(t, fleet, s, k, p);
    var s1 := Send(t, s, k, p);
    forall n ensures AllGenuine(fleet, At(s'.sent, n)) && AllGenuine(fleet, At(s'.chan, n))
      && AllGenuine(fleet, At(s'.rcv, n)) {
      assert AllGenuine(fleet, At(s1.sent, n)) && AllGenuine(fleet, At(s1.chan, n)) && AllGenuine(fleet, At(s1.rcv, n));
    }
    forall n ensures AllGenuine(fleet, Held(s', n)) {
      assert AllGenuine(fleet, Held(s1, n));
    }
  }

  /** What each monitor publishes is what its host may send. */
  ghost predicate PublishedGood(t: Topology, steps: seq<Step>, fleet: map<nat, Config>) {
    fleet.Keys == t.monitors && forall m | m in fleet :: AllSentBy(fleet[m].host, Published(m, steps))
  }

  lemma PublishedShorter(t: Topology, steps: seq<Step>, fleet: map<nat, Config>)
    requires steps != [] && PublishedGood(t, steps, fleet)
    ensures PublishedGood(t, steps[..|steps| - 1], fleet)
  {
    var before := steps[..|steps| - 1];
    forall m | m in fleet ensures AllSentBy(fleet[m].host, Published(m, before)) {
      assert Published(m, before) <= Published(m, steps);
    }
  }

  lemma {:induction false} ExecGenuine(t: Topology, steps: seq<Step>, fleet: map<nat, Config>)
    requires PublishedGood(t, steps, fleet)
    ensures GenuineNet(fleet, Exec(t, steps))
    decreases |steps|
  {
    if steps != [] {
      var before, last := steps[..|steps| - 1], steps[|steps| - 1];
      var s := Exec(t, before);
      PublishedShorter(t, steps, fleet);
      ExecGenuine(t, before, fleet);
      match last
      case Publish(n, msg) =>
        if n in t.monitors {
          assert Published(n, steps)[|Published(n, before)|] == msg;
          SendGenuine(t, fleet, s, n, Packet(n, msg));
        }
      case Receive(n) => if Receivable(t, s, n) { ReceiveGenuine(t, fleet, s, n); }
      case Forward(n) => if PhaseOf(s, n).Holding? { ForwardGenuine(t, fleet, s, n); }
      case _ => OtherGenuine(t, fleet, s, last);
    }
  }

  lemma DeployedGood(t: Topology, steps: seq<Step>, fleet: map<nat, Config>)
    requires Deployed(t, steps, fleet)
    ensures PublishedGood(t, steps, fleet)
  {
    forall m | m in fleet ensures AllSentBy(fleet[m].host, Published(m, steps)) {
      RunSendsGood(fleet[m].host, fleet[m].cycles);
    }
  }

  // ---------- what is filed for a host is what its monitor sent ----------

  lemma ContentsGood(fleet: map<nat, Config>, ps: seq<Packet>)
    requires AllGenuine(fleet, ps)
    ensures AllGood(Contents(ps))
  {
    forall i | 0 <= i < |ps| ensures GoodMessage(Contents(ps)[i]) {
      assert Genuine(fleet, ps[i]);
    }
  }

  lemma {:induction false} FromSentBy(fleet: map<nat, Config>, ps: seq<Packet>, m: nat)
    requires AllGenuine(fleet, ps) && m in fleet
    ensures AllSentBy(fleet[m].host, From(m, ps))
    decreases |ps|
  {
    if ps != [] {
      var p := ps[|ps| - 1];
      FromSentBy(fleet, ps[..|ps| - 1], m);
      assert Genuine(fleet, p);
      ReceivedKey(p.msg);
    }
  }

  ghost predicate OnlyHost(fleet: map<nat, Config>, m: nat) {
    m in fleet && forall m' | m' in fleet && m' != m :: fleet[m'].host != fleet[m].host
  }

  lemma {:induction false} ForeignBatch(root: string, agg: AggregateStats, n: nat, h: string, uuid: string,
      metric: string)
    requires n <= |agg.domains| && agg.hostname != h
    ensures BatchSeries(root, agg, n, h, uuid, metric) == []
  {
    if n > 0 {
      ForeignBatch(root, agg, n - 1, h, uuid, metric);
    }
  }

  lemma OwnSeriesOne(fleet: map<nat, Config>, root: string, p: Packet, m: nat, uuid: string, metric: string)
    requires Genuine(fleet, p) && OnlyHost(fleet, m)
    ensures MessageSeries(root, p.msg, fleet[m].host, uuid, metric)
         == MessagesSeries(root, Own(m, p), fleet[m].host, uuid, metric)
  {
    ReceivedKey(p.msg);
    SeriesOne(root, p.msg, fleet[m].host, uuid, metric);
    if p.origin != m && p.msg.key != TERM_KEY {
      ForeignBatch(root, p.msg.data.agg, |p.msg.data.agg.domains|, fleet[m].host, uuid, metric);
    }
  }

  /** With distinct hosts, what a log carries for a host, UUID and metric is, point by point, what that host's
      monitor put into it. */
  lemma {:induction false} OwnSeries(fleet: map<nat, Config>, root: string, ps: seq<Packet>, m: nat, uuid: string,
      metric: string)
    requires AllGenuine(fleet, ps) && OnlyHost(fleet, m)
    ensures MessagesSeries(root, Contents(ps), fleet[m].host, uuid, metric)
         == MessagesSeries(root, From(m, ps), fleet[m].host, uuid, metric)
    decreases |ps|
  {
    if ps != [] {
      var most, p := ps[..|ps| - 1], ps[|ps| - 1];
      OwnSeries(fleet, root, most, m, uuid, metric);
      OwnSeriesOne(fleet, root, p, m, uuid, metric);
      SeriesConcat(root, From(m, most), Own(m, p), fleet[m].host, uuid, metric);
      assert Contents(ps)[..|most|] == Contents(most);
    }
  }

  /** The store once everything a node received has gone through the pipe to the updater. */
  function StoreAt(root: string, s: Net, n: nat): Store {
    ProcessLines(Store(root, {}, [], []), ReadLines(Stream(Contents(At(s.rcv, n))))).0
  }

  /** What node n's updater has filed for a host, UUID and metric. */
  function FiledSeries(root: string, s: Net, n: nat, host: string, uuid: string, metric: string): seq<Point> {
    Series(StoreAt(root, s, n).points, FilePath(root, host, uuid, metric))
  }

  lemma AcceptedSent(host: string, sent: seq<Message>)
    requires AllSentBy(host, sent)
    ensures Accepted(sent) == sent
  {
    forall i | 0 <= i < |sent| ensures Subscribed(sent[i].key) && '\0' !in sent[i].key {
      assert SentBy(host, sent[i]);
    }
    AcceptedAll(sent);
  }

  /** What any other node has received of a monitor is drawn in order from what its run sends. */
  lemma ReceivedOfRun(t: Topology, steps: seq<Step>, fleet: map<nat, Config>, w: nat, m: nat)
    requires Deployed(t, steps, fleet) && m in fleet && w != m
    ensures Subseq(From(m, At(Exec(t, steps).rcv, w)), Run(fleet[m].host, fleet[m].cycles).sent)
  {
    DeployedGood(t, steps, fleet);
    AcceptedSent(fleet[m].host, Published(m, steps));
    RelayedInOrder(t, steps, m, w);
    Sequences.Prefix(Published(m, steps), Run(fleet[m].host, fleet[m].cycles).sent);
    Transitive(From(m, At(Exec(t, steps).rcv, w)), Published(m, steps), Run(fleet[m].host, fleet[m].cycles).sent);
  }

  /** Lossy or not: what is filed for a host, UUID and metric is exactly what was received for it, and a
      subsequence of what the monitor's run carries for it. */
  lemma FiledAt(t: Topology, steps: seq<Step>, fleet: map<nat, Config>, w: nat, m: nat,
                root: string, uuid: string, metric: string)
    requires Deployed(t, steps, fleet) && m in fleet && w != m && GoodUuid(uuid) && IsMetric(metric)
    ensures var s, host := Exec(t, steps), fleet[m].host;
      var filed := FiledSeries(root, s, w, host, uuid, metric);
      && filed == MessagesSeries(root, From(m, At(s.rcv, w)), host, uuid, metric)
      && Subseq(filed, MessagesSeries(root, Run(host, fleet[m].cycles).sent, host, uuid, metric))
  {
    var log, host := At(Exec(t, steps).rcv, w), fleet[m].host;
    DeployedGood(t, steps, fleet);
    ExecGenuine(t, steps, fleet);
    assert AllGenuine(fleet, log);
    ContentsGood(fleet, log);
    StreamFiled(root, Contents(log), host, uuid, metric);
    OwnSeries(fleet, root, log, m, uuid, metric);
    ReceivedOfRun(t, steps, fleet, w, m);
    SeriesSubseq(root, From(m, log), Run(host, fleet[m].cycles).sent, host, uuid, metric);
  }

  /** Lossy or not: every filed point carries the time of one of its monitor's cycles, to within the rounding. */
  lemma FiledStamped(t: Topology, steps: seq<Step>, fleet: map<nat, Config>, w: nat, m: nat,
                     root: string, uuid: string, metric: string, p: Point)
    requires Deployed(t, steps, fleet) && m in fleet && w != m && GoodUuid(uuid) && IsMetric(metric)
    requires p in FiledSeries(root, Exec(t, steps), w, fleet[m].host, uuid, metric)
    ensures Stamped(p, fleet[m].cycles)
  {
    var host, cycles := fleet[m].host, fleet[m].cycles;
    FiledAt(t, steps, fleet, w, m, root, uuid, metric);
    Members(FiledSeries(root, Exec(t, steps), w, host, uuid, metric),
            MessagesSeries(root, Run(host, cycles).sent, host, uuid, metric), p);
    RunIsStory(host, cycles);
    StoryStamped(root, host, cycles, host, uuid, metric, p);
  }

  // ---------- terminations ----------

  /** The notice of a domain names the topic its metrics are published under. */
  lemma NoticeNamesTopic(host: string, uuid: string, metric: string)
    ensures TermMessage(host, uuid).key == "monitor.term_instance" && TermMessage(host, uuid).data.Notice?
    ensures FullKey(host, uuid, metric) == "monitor." + TermMessage(host, uuid).data.instance + "." + metric
  {
    assert "monitor." + "servers." == "monitor.servers.";
    Assoc("monitor.", "servers.", host);
    Assoc("monitor.", "servers." + host, ".");
    Assoc("monitor.", "servers." + host + ".", uuid);
  }

  /** Different domains have different notices, even when hosts contain dots. */
  lemma NoticesDiffer(host: string, uuid: string, host': string, uuid': string)
    requires '.' !in uuid && '.' !in uuid' && TermMessage(host, uuid) == TermMessage(host', uuid')
    ensures host == host' && uuid == uuid'
  {
    var a, a' := "servers." + host, "servers." + host';
    CutAtLast(a, uuid, a', uuid', '.');
    assert a[8..] == host && a'[8..] == host';
  }

  lemma NoticesMore(sent: seq<Message>)
    requires sent != []
    ensures var last := sent[|sent| - 1];
      Notices(sent) == Notices(sent[..|sent| - 1]) + if last.key == TERM_KEY then [last.data] else []
  {
  }

  lemma {:induction false} TextsOfNotices(sent: seq<Message>)
    requires AllGood(sent)
    ensures |NoticeTexts(sent)| == |Notices(sent)|
    ensures forall i :: 0 <= i < |Notices(sent)| ==> Notices(sent)[i] == Notice(NoticeTexts(sent)[i])
    decreases |sent|
  {
    if sent != [] {
      TextsOfNotices(sent[..|sent| - 1]);
      NoticesMore(sent);
    }
  }

  /** The terminations the updater prints for a run are those of its freed trackers, in order, by the name of
      their host and UUID. */
  lemma RunTerminated(root: string, host: string, cycles: seq<Cycle>)
    requires GoodHost(host) && GoodCycles(cycles)
    ensures var text, freed := Stream(Run(host, cycles).sent), Run(host, cycles).retired;
      var printed := ProcessLines(Store(root, {}, [], []), ReadLines(text)).0.terminated;
      |printed| == |freed| && forall i :: 0 <= i < |freed| ==> printed[i] == "servers." + host + "." + freed[i].cur.uuid
  {
    var sent := Run(host, cycles).sent;
    RunSendsGood(host, cycles);
    StreamProcessed(Store(root, {}, [], []), sent);
    StoredTexts(Store(root, {}, [], []), sent);
    assert [] + NoticeTexts(sent) == NoticeTexts(sent);
    TextsOfNotices(sent);
    LogsAgree(host, cycles);
  }

  /** At any node, they are the texts of the notices in its log, in order. */
  lemma TerminatedAt(t: Topology, steps: seq<Step>, fleet: map<nat, Config>, w: nat, root: string)
    requires Deployed(t, steps, fleet)
    ensures StoreAt(root, Exec(t, steps), w).terminated == NoticeTexts(Contents(At(Exec(t, steps).rcv, w)))
  {
    var log := At(Exec(t, steps).rcv, w);
    DeployedGood(t, steps, fleet);
    ExecGenuine(t, steps, fleet);
    assert AllGenuine(fleet, log);
    ContentsGood(fleet, log);
    StreamProcessed(Store(root, {}, [], []), Contents(log));
    StoredTexts(Store(root, {}, [], []), Contents(log));
    assert [] + NoticeTexts(Contents(log)) == NoticeTexts(Contents(log));
  }

  // ---------- conservation from counters to decoded values ----------

  function ValuesOf(points: seq<Point>): seq<Num> {
    seq(|points|, i requires 0 <= i < |points| => points[i].value)
  }

  /** What a metric's file holds for these entries. */
  function ReadingsOf(entries: seq<DomainStats>, metric: string): seq<Num> {
    seq(|entries|, i requires 0 <= i < |entries| => Decoded(ReadingOf(entries[i], metric)))
  }

  lemma ValuesConcat(a: seq<Point>, b: seq<Point>)
    ensures ValuesOf(a + b) == ValuesOf(a) + ValuesOf(b)
  {
  }

  lemma ReadingsConcat(a: seq<DomainStats>, b: seq<DomainStats>, metric: string)
    ensures ReadingsOf(a + b, metric) == ReadingsOf(a, metric) + ReadingsOf(b, metric)
  {
  }

  lemma EntryReading(root: string, host: string, tov: Num, d: DomainStats, uuid: string, metric: string)
    ensures ValuesOf(EntrySeries(root, host, tov, d, host, uuid, metric))
         == ReadingsOf(if d.uuid == uuid then [d] else [], metric)
  {
  }

  lemma {:induction false} BatchReadings(root: string, agg: AggregateStats, n: nat, uuid: string, metric: string)
    requires n <= |agg.domains|
    ensures ValuesOf(BatchSeries(root, agg, n, agg.hostname, uuid, metric))
         == ReadingsOf(EntriesIn(agg.domains[..n], ByUuid(uuid)), metric)
  {
    if n > 0 {
      var most, last := EntriesIn(agg.domains[..n - 1], ByUuid(uuid)), agg.domains[n - 1];
      BatchReadings(root, agg, n - 1, uuid, metric);
      assert agg.domains[..n][..n - 1] == agg.domains[..n - 1];
      EntryReading(root, agg.hostname, agg.tov, last, uuid, metric);
      ReadingsConcat(most, if last.uuid == uuid then [last] else [], metric);
      ValuesConcat(BatchSeries(root, agg, n - 1, agg.hostname, uuid, metric),
                   EntrySeries(root, agg.hostname, agg.tov, last, agg.hostname, uuid, metric));
    }
  }

  /** The decoded values of a host's own messages are, in order, those of their entries. */
  lemma {:induction false} SeriesReadings(root: string, host: string, messages: seq<Message>, uuid: string,
      metric: string)
    requires AllSentBy(host, messages)
    ensures ValuesOf(MessagesSeries(root, messages, host, uuid, metric))
         == ReadingsOf(EntriesOf(messages, ByUuid(uuid)), metric)
    decreases |messages|
  {
    if messages != [] {
      var most, m := messages[..|messages| - 1], messages[|messages| - 1];
      SeriesReadings(root, host, most, uuid, metric);
      assert SentBy(host, m);
      var own := if m.data.Batch? then EntriesIn(m.data.agg.domains, ByUuid(uuid)) else [];
      if m.data.Batch? {
        BatchReadings(root, m.data.agg, |m.data.agg.domains|, uuid, metric);
        assert m.data.agg.domains[..|m.data.agg.domains|] == m.data.agg.domains;
      }
      ReadingsConcat(EntriesOf(most, ByUuid(uuid)), own, metric);
      ValuesConcat(MessagesSeries(root, most, host, uuid, metric), MessageSeries(root, m, host, uuid, metric));
    }
  }

  lemma {:induction false} ValuesTotal(points: seq<Point>, entries: seq<DomainStats>, k: Counter)
    requires k.DiskReadReq? || k.DiskWriteReq?
    requires ValuesOf(points) == ReadingsOf(entries, MetricOf(k))
    ensures ValueSum(points) == Total(entries, k) as real
    decreases |points|
  {
    if points != [] {
      var n := |points| - 1;
      assert |ValuesOf(points)| == |points| && |ReadingsOf(entries, MetricOf(k))| == |entries|;
      assert ValuesOf(points[..n]) == ValuesOf(points)[..n];
      assert ReadingsOf(entries[..n], MetricOf(k)) == ReadingsOf(entries, MetricOf(k))[..n];
      ValuesTotal(points[..n], entries[..n], k);
      LastValue(points[n], entries[n], k);
      assert ValuesOf(points)[n] == points[n].value;
    }
  }

  lemma LastValue(p: Point, d: DomainStats, k: Counter)
    requires k.DiskReadReq? || k.DiskWriteReq?
    ensures p.value == Decoded(ReadingOf(d, MetricOf(k))) ==> Value(p.value) == Delta(d, k) as real
  {
    MetricsDiffer();
    IntRoundTrip(Delta(d, k));
  }

  /** So the decoded disk values of a host's own messages add up to the deltas they report. */
  lemma SeriesSum(root: string, host: string, messages: seq<Message>, uuid: string, k: Counter)
    requires AllSentBy(host, messages) && (k.DiskReadReq? || k.DiskWriteReq?)
    ensures ValueSum(MessagesSeries(root, messages, host, uuid, MetricOf(k))) == SentSum(messages, uuid, k) as real
  {
    SeriesReadings(root, host, messages, uuid, MetricOf(k));
    ValuesTotal(MessagesSeries(root, messages, host, uuid, MetricOf(k)), EntriesOf(messages, ByUuid(uuid)), k);
    SentSumTotal(messages, uuid, k);
  }

  lemma FiledSum(t: Topology, steps: seq<Step>, fleet: map<nat, Config>, w: nat, m: nat,
                 root: string, uuid: string, k: Counter)
    requires Deployed(t, steps, fleet) && m in fleet && w != m
    requires GoodUuid(uuid) && (k.DiskReadReq? || k.DiskWriteReq?)
    ensures var s := Exec(t, steps);
      ValueSum(FiledSeries(root, s, w, fleet[m].host, uuid, MetricOf(k)))
        == SentSum(From(m, At(s.rcv, w)), uuid, k) as real
  {
    FiledAt(t, steps, fleet, w, m, root, uuid, MetricOf(k));
    DeployedGood(t, steps, fleet);
    ExecGenuine(t, steps, fleet);
    assert AllGenuine(fleet, At(Exec(t, steps).rcv, w));
    FromSentBy(fleet, At(Exec(t, steps).rcv, w), m);
    SeriesSum(root, fleet[m].host, From(m, At(Exec(t, steps).rcv, w)), uuid, k);
  }

  /** What m's monitor has yet to hand to its socket. */
  ghost function Unpublished(steps: seq<Step>, fleet: map<nat, Config>, m: nat): seq<Message>
    requires m in fleet && Published(m, steps) <= Run(fleet[m].host, fleet[m].cycles).sent
  {
    Run(fleet[m].host, fleet[m].cycles).sent[|Published(m, steps)|..]
  }

  /** What m's run reports in messages that have not reached node w: in flight, or yet to be published. */
  ghost function OnTheWay(t: Topology, steps: seq<Step>, fleet: map<nat, Config>, w: nat, m: nat, uuid: string,
      k: Counter): int
    requires t.Valid() && w != m && OnRoute(t, m, w)
    requires m in fleet && Published(m, steps) <= Run(fleet[m].host, fleet[m].cycles).sent
  {
    SentSum(InFlight(t, Exec(t, steps), m, m, w), uuid, k) + SentSum(Unpublished(steps, fleet, m), uuid, k)
  }

  /** The sum of decoded values is a whole number, and with what is missing from it agrees with the movement. */
  predicate Balanced(exact: bool, filed: real, missing: int, movement: int) {
    filed == filed.Floor as real && Agree(exact, filed.Floor + missing, movement)
  }

  /** Without loss what has been received of a monitor is the beginning of what its run sends. */
  lemma ReceivedWithoutLoss(t: Topology, steps: seq<Step>, fleet: map<nat, Config>, w: nat, m: nat)
    requires Deployed(t, steps, fleet) && NoLoss(steps)
    requires m in fleet && w != m && OnRoute(t, m, w)
    ensures From(m, At(Exec(t, steps).rcv, w)) <= Run(fleet[m].host, fleet[m].cycles).sent
    ensures Published(m, steps) == From(m, At(Exec(t, steps).rcv, w)) + InFlight(t, Exec(t, steps), m, m, w)
  {
    DeployedGood(t, steps, fleet);
    AcceptedSent(fleet[m].host, Published(m, steps));
    NothingLost(t, steps, m, w);
  }

  lemma SentParts(got: seq<Message>, flying: seq<Message>, sent: seq<Message>, uuid: string, k: Counter)
    requires got + flying <= sent
    ensures SentSum(got, uuid, k) + SentSum(flying, uuid, k) + SentSum(sent[|got + flying|..], uuid, k)
         == SentSum(sent, uuid, k)
  {
    var published := got + flying;
    SentSumConcat(got, flying, uuid, k);
    SentSumConcat(published, sent[|published|..], uuid, k);
    assert published + sent[|published|..] == sent;
  }

  lemma Delivered(t: Topology, steps: seq<Step>, fleet: map<nat, Config>, w: nat, m: nat, uuid: string, k: Counter)
    requires Deployed(t, steps, fleet) && NoLoss(steps)
    requires m in fleet && w != m && OnRoute(t, m, w)
    ensures var s := Exec(t, steps);
      SentSum(From(m, At(s.rcv, w)), uuid, k) + OnTheWay(t, steps, fleet, w, m, uuid, k)
         == SentSum(Run(fleet[m].host, fleet[m].cycles).sent, uuid, k)
  {
    var s := Exec(t, steps);
    ReceivedWithoutLoss(t, steps, fleet, w, m);
    SentParts(From(m, At(s.rcv, w)), InFlight(t, s, m, m, w), Run(fleet[m].host, fleet[m].cycles).sent, uuid, k);
  }

  lemma Accounted(t: Topology, steps: seq<Step>, fleet: map<nat, Config>, w: nat, m: nat,
                  root: string, uuid: string, k: Counter)
    requires Deployed(t, steps, fleet) && NoLoss(steps)
    requires m in fleet && w != m && OnRoute(t, m, w)
    requires GoodUuid(uuid) && (k.DiskReadReq? || k.DiskWriteReq?)
    ensures ValueSum(FiledSeries(root, Exec(t, steps), w, fleet[m].host, uuid, MetricOf(k)))
         == (SentSum(Run(fleet[m].host, fleet[m].cycles).sent, uuid, k)
             - OnTheWay(t, steps, fleet, w, m, uuid, k)) as real
  {
    FiledSum(t, steps, fleet, w, m, root, uuid, k);
    Delivered(t, steps, fleet, w, m, uuid, k);
  }

  lemma Balance(exact: bool, filed: real, rest: int, sent: int, drift: int)
    requires filed == (sent - rest) as real && Agree(exact, sent, drift)
    ensures Balanced(exact, filed, rest, drift)
  {
  }

  /** Conservation, end to end and at any moment: without loss, over every tree and interleaving, the values
      filed for a host, UUID and disk counter, together with those still in flight or yet to be published, add
      up to the movement of that counter over all lifetimes of the domain on that host, whatever samples
      failed. Exactly so when this counter's movements fit; modulo 2^64 in general. */
  lemma EndToEnd(exact: bool, t: Topology, steps: seq<Step>, fleet: map<nat, Config>, w: nat, m: nat,
                 root: string, uuid: string, k: Counter)
    requires Deployed(t, steps, fleet) && NoLoss(steps)
    requires m in fleet && w != m && OnRoute(t, m, w)
    requires exact ==> RunFits(fleet[m].host, fleet[m].cycles, uuid, k)
    requires GoodUuid(uuid) && (k.DiskReadReq? || k.DiskWriteReq?)
    ensures Balanced(exact, ValueSum(FiledSeries(root, Exec(t, steps), w, fleet[m].host, uuid, MetricOf(k))),
                     OnTheWay(t, steps, fleet, w, m, uuid, k),
                     TotalDrift(Run(fleet[m].host, fleet[m].cycles), uuid, k))
  {
    Accounted(t, steps, fleet, w, m, root, uuid, k);
    DeltasConserved(exact, fleet[m].host, fleet[m].cycles, uuid, k);
    var filed := ValueSum(FiledSeries(root, Exec(t, steps), w, fleet[m].host, uuid, MetricOf(k)));
    Balance(exact, filed, OnTheWay(t, steps, fleet, w, m, uuid, k),
            SentSum(Run(fleet[m].host, fleet[m].cycles).sent, uuid, k),
            TotalDrift(Run(fleet[m].host, fleet[m].cycles), uuid, k));
  }

  // ---------- no report after termination, anywhere ----------

  /** After the notice for a UUID no batch names it. */
  ghost predicate NoReportAfterNotice(sent: seq<Message>, host: string, uuid: string) {
    sent == [] || ((sent[0] == TermMessage(host, uuid) ==> QuietFrom(sent[1..], 0, uuid))
                   && NoReportAfterNotice(sent[1..], host, uuid))
  }

  lemma {:induction false} QuietSubseq(a: seq<Message>, b: seq<Message>, uuid: string)
    requires Subseq(a, b) && QuietFrom(b, 0, uuid)
    ensures QuietFrom(a, 0, uuid)
    decreases |b|
  {
    if a != [] {
      assert QuietFrom(b[1..], 0, uuid) by {
        forall i | 0 <= i < |b[1..]| ensures !Names(b[1..][i], uuid) {
          assert b[1..][i] == b[i + 1];
        }
      }
      if a[0] == b[0] && Subseq(a[1..], b[1..]) {
        QuietSubseq(a[1..], b[1..], uuid);
        assert !Names(b[0], uuid);
        forall i | 0 <= i < |a| ensures !Names(a[i], uuid) {
          assert i > 0 ==> a[i] == a[1..][i - 1];
        }
      } else {
        QuietSubseq(a, b[1..], uuid);
      }
    }
  }

  /** Losing messages cannot put a report after a notice. */
  lemma {:induction false} NoReportSubseq(a: seq<Message>, b: seq<Message>, host: string, uuid: string)
    requires Subseq(a, b) && NoReportAfterNotice(b, host, uuid)
    ensures NoReportAfterNotice(a, host, uuid)
    decreases |b|
  {
    if a != [] {
      if a[0] == b[0] && Subseq(a[1..], b[1..]) {
        NoReportSubseq(a[1..], b[1..], host, uuid);
        if a[0] == TermMessage(host, uuid) {
          QuietSubseq(a[1..], b[1..], uuid);
        }
      } else {
        NoReportSubseq(a, b[1..], host, uuid);
      }
    }
  }

  lemma {:induction false} QuietIsNoReport(sent: seq<Message>, n: nat, host: string, uuid: string)
    requires n <= |sent| && QuietFrom(sent, n, uuid)
    requires forall i :: 0 <= i < n ==> sent[i] != TermMessage(host, uuid)
    ensures NoReportAfterNotice(sent, host, uuid)
    decreases |sent|
  {
    if sent != [] {
      var rest, n' := sent[1..], if n == 0 then 0 else n - 1;
      forall i | n' <= i < |rest| ensures !Names(rest[i], uuid) {
        assert rest[i] == sent[i + 1];
      }
      QuietIsNoReport(rest, n', host, uuid);
    }
  }

  lemma PublishedPart(host: string, published: seq<Message>, sent: seq<Message>)
    requires published <= sent && AllSentBy(host, sent)
    ensures Accepted(published) == published && Subseq(published, sent)
  {
    AcceptedSent(host, published);
    Sequences.Prefix(published, sent);
  }

  lemma QuietTail(sent: seq<Message>, n: nat, uuid: string)
    requires n <= |sent| && QuietFrom(sent, n, uuid)
    ensures QuietFrom(sent[n..], 0, uuid)
  {
    forall i | 0 <= i < |sent| - n ensures !Names(sent[n..][i], uuid) {
      assert sent[n..][i] == sent[n + i];
    }
  }

  /** If nothing after the beginning called early names a UUID in what a monitor sends, what any node of any
      lossy relay tree has of it is drawn from early, followed by messages that do not name the UUID. */
  lemma ReceivedSplits(t: Topology, steps: seq<Step>, m: nat, n: nat, host: string, early: seq<Message>,
                       sent: seq<Message>, uuid: string)
    returns (p: seq<Message>, q: seq<Message>)
    requires t.Valid() && m in t.monitors && n != m && Published(m, steps) <= sent && AllSentBy(host, sent)
    requires early <= sent && QuietFrom(sent, |early|, uuid)
    ensures From(m, At(Exec(t, steps).rcv, n)) == p + q && Subseq(p, early) && QuietFrom(q, 0, uuid)
  {
    var log, later := From(m, At(Exec(t, steps).rcv, n)), sent[|early|..];
    PublishedPart(host, Published(m, steps), sent);
    RelayedInOrder(t, steps, m, n);
    Transitive(log, Published(m, steps), sent);
    assert early + later == sent;
    p, q := Divide(log, early, later);
    QuietTail(sent, |early|, uuid);
    QuietSubseq(q, later, uuid);
  }

  lemma StoryLast(host: string, before: seq<Cycle>, c: Cycle)
    ensures Story(host, before + [c]) == CycleResult(Story(host, before), c)
  {
    assert Most(before + [c]) == before && MonitorRuns.Last(before + [c]) == c;
  }

  lemma LastCycleQuiet(host: string, before: seq<Cycle>, c: Cycle, uuid: string)
    requires !Carried(Run(host, before + [c]).trackers, uuid)
    ensures Run(host, before).sent <= Run(host, before + [c]).sent
    ensures QuietFrom(Run(host, before + [c]).sent, |Run(host, before).sent|, uuid)
  {
    RunIsStory(host, before);
    RunIsStory(host, before + [c]);
    StoryLast(host, before, c);
    SentQuiet(Story(host, before), c, uuid);
  }

  lemma QuietSince(host: string, before: seq<Cycle>, c: Cycle, after: seq<Cycle>, uuid: string)
    requires !Carried(Run(host, before + [c]).trackers, uuid)
    requires forall i :: 0 <= i < |after| ==> NotFound(after[i], uuid)
    ensures Run(host, before).sent <= Run(host, before + [c] + after).sent
    ensures QuietFrom(Run(host, before + [c] + after).sent, |Run(host, before).sent|, uuid)
  {
    NoLaterReport(host, before + [c], after, uuid);
    LastCycleQuiet(host, before, c, uuid);
    QuietLonger(Run(host, before).sent, Run(host, before + [c]).sent, Run(host, before + [c] + after).sent, uuid);
  }

  /** A UUID that no monitored domain carries, and that is not found again, is named by nothing sent from then
      on, however often it was announced, found and announced again before: at any moment, what any node of any
      lossy relay tree has received splits into messages sent before and messages that do not name it. */
  lemma SilentEverywhere(t: Topology, steps: seq<Step>, m: nat, n: nat, host: string,
                         before: seq<Cycle>, after: seq<Cycle>, uuid: string)
    returns (p: seq<Message>, q: seq<Message>)
    requires t.Valid() && m in t.monitors && n != m && GoodHost(host) && GoodCycles(before + after)
    requires Published(m, steps) <= Run(host, before + after).sent
    requires !Carried(Run(host, before).trackers, uuid)
    requires forall i :: 0 <= i < |after| ==> NotFound(after[i], uuid)
    ensures From(m, At(Exec(t, steps).rcv, n)) == p + q
    ensures Subseq(p, Run(host, before).sent) && QuietFrom(q, 0, uuid)
  {
    NoLaterReport(host, before, after, uuid);
    RunSendsGood(host, before + after);
    p, q := ReceivedSplits(t, steps, m, n, host, Run(host, before).sent, Run(host, before + after).sent, uuid);
  }

  /** Nor does the cycle that announces its termination name it: the split is before that cycle's notices. */
  lemma SilentFromNotice(t: Topology, steps: seq<Step>, m: nat, n: nat, host: string,
                         before: seq<Cycle>, c: Cycle, after: seq<Cycle>, uuid: string)
    returns (p: seq<Message>, q: seq<Message>)
    requires t.Valid() && m in t.monitors && n != m && GoodHost(host) && GoodCycles(before + [c] + after)
    requires Published(m, steps) <= Run(host, before + [c] + after).sent
    requires !Carried(Run(host, before + [c]).trackers, uuid)
    requires forall i :: 0 <= i < |after| ==> NotFound(after[i], uuid)
    ensures From(m, At(Exec(t, steps).rcv, n)) == p + q
    ensures Subseq(p, Run(host, before).sent) && QuietFrom(q, 0, uuid)
  {
    QuietSince(host, before, c, after, uuid);
    RunSendsGood(host, before + [c] + after);
    p, q := ReceivedSplits(t, steps, m, n, host, Run(host, before).sent, Run(host, before + [c] + after).sent, uuid);
  }

  /** In particular, when this is the first announcement of the UUID, no batch names it after its notice. */
  lemma SilentAfterFirstNotice(t: Topology, steps: seq<Step>, m: nat, n: nat, host: string,
                               before: seq<Cycle>, c: Cycle, after: seq<Cycle>, uuid: string)
    requires t.Valid() && m in t.monitors && n != m && GoodHost(host) && GoodCycles(before + [c] + after)
    requires Published(m, steps) <= Run(host, before + [c] + after).sent
    requires forall i :: 0 <= i < |Run(host, before).sent| ==> Run(host, before).sent[i] != TermMessage(host, uuid)
    requires !Carried(Run(host, before + [c]).trackers, uuid)
    requires forall i :: 0 <= i < |after| ==> NotFound(after[i], uuid)
    ensures NoReportAfterNotice(Published(m, steps), host, uuid)
    ensures NoReportAfterNotice(From(m, At(Exec(t, steps).rcv, n)), host, uuid)
  {
    var sent := Run(host, before + [c] + after).sent;
    QuietSince(host, before, c, after, uuid);
    QuietIsNoReport(sent, |Run(host, before).sent|, host, uuid);
    RunSendsGood(host, before + [c] + after);
    PublishedPart(host, Published(m, steps), sent);
    NoReportSubseq(Published(m, steps), sent, host, uuid);
    RelayedInOrder(t, steps, m, n);
    NoReportSubseq(From(m, At(Exec(t, steps).rcv, n)), Published(m, steps), host, uuid);
  }
}
