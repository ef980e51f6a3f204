/** From messages to the metric store: the writer's lines as the updater process reads them. */
module WriterStream {
  import opened DashboardQueries
  import opened MessageFrames
  import opened Numerals
  import opened Sequences
  import opened Stats
  import opened Text
  import opened WhisperLines
  import opened WhisperProxy
  import opened WhisperUpdater

  // ---------- messages as the monitors send them ----------

  predicate GoodNotice(instance: string) { IsWord(instance) && '\0' !in instance }

  predicate GoodMessage(m: Message) {
    && '\0' !in m.key
    && (if m.key == TERM_KEY then m.data.Notice? && GoodNotice(m.data.instance)
        else m.data.Batch? && GoodBatch(m.data.agg))
  }

  predicate AllGood(messages: seq<Message>) {
    forall i :: 0 <= i < |messages| ==> GoodMessage(messages[i])
  }

  /** The reports of a message; a notice has none. */
  function ReportsIn(m: Message): seq<Report> {
    if m.key != TERM_KEY && m.data.Batch? then Reports(m.data.agg.hostname, m.data.agg.tov, m.data.agg.domains) else []
  }

  function FiledAll(s: Store, reports: seq<Report>): Store {
    if reports == [] then s else Filed(FiledAll(s, reports[..|reports| - 1]), reports[|reports| - 1])
  }

  /** What a message does to the store. */
  function Stored(s: Store, m: Message): Store {
    if m.key == TERM_KEY && m.data.Notice?
    then s.(terminated := s.terminated + [m.data.instance])
    else FiledAll(s, ReportsIn(m))
  }

  function StoredAll(s: Store, messages: seq<Message>): Store {
    if messages == [] then s else Stored(StoredAll(s, messages[..|messages| - 1]), messages[|messages| - 1])
  }

  // ---------- processing what was written ----------

  lemma {:induction false} ProcessConcat(s: Store, a: seq<string>, b: seq<string>)
    requires ProcessLines(s, a).1 == Done
    ensures ProcessLines(s, a + b) == ProcessLines(ProcessLines(s, a).0, b)
    decreases |a|
  {
    if a == [] {
      assert a + b == b;
    } else {
      ProcessConcat(ProcessCmd(s, Strip(a[0])).0, a[1..], b);
      TailConcat(a, b);
    }
  }

  /** The first line that raises ends the reading: whatever follows it has no effect. */
  lemma ReadingStops(s: Store, a: seq<string>, line: string, b: seq<string>)
    requires ProcessLines(s, a).1 == Done && ProcessCmd(ProcessLines(s, a).0, Strip(line)).1.Raised?
    ensures ProcessLines(s, a + [line] + b) == ProcessCmd(ProcessLines(s, a).0, Strip(line))
  {
    Assoc(a, [line], b);
    ProcessConcat(s, a, [line] + b);
    assert ([line] + b)[0] == line;
  }

  lemma ProcessOne(s: Store, line: string)
    ensures ProcessLines(s, Terminated([line])) == ProcessCmd(s, line)
  {
    ProcessStripped(s, line);
    assert Terminated([line]) == [line + "\n"];
    assert [line + "\n"][1..] == [];
  }

  lemma TerminatedConcat(a: seq<string>, b: seq<string>)
    ensures Terminated(a + b) == Terminated(a) + Terminated(b)
  {
  }

  lemma ReportProcessed(s: Store, r: Report)
    requires GoodReport(r)
    ensures ProcessLines(s, Terminated([LineOf(r)])) == (Filed(s, r), Done)
  {
    ProcessOne(s, LineOf(r));
    LineRoundTrip(s, r);
  }

  lemma LinesMore(most: seq<Report>, last: Report)
    ensures Terminated(Lines(most + [last])) == Terminated(Lines(most)) + Terminated([LineOf(last)])
  {
    assert Lines(most + [last]) == Lines(most) + [LineOf(last)];
    TerminatedConcat(Lines(most), [LineOf(last)]);
  }

  lemma FiledMore(s: Store, most: seq<Report>, last: Report)
    ensures FiledAll(s, most + [last]) == Filed(FiledAll(s, most), last)
  {
    assert (most + [last])[..|most|] == most;
  }

  lemma {:induction false} ReportsProcessed(s: Store, reports: seq<Report>)
    requires forall i :: 0 <= i < |reports| ==> GoodReport(reports[i])
    ensures ProcessLines(s, Terminated(Lines(reports))) == (FiledAll(s, reports), Done)
    decreases |reports|
  {
    if reports != [] {
      var most, last := reports[..|reports| - 1], reports[|reports| - 1];
      assert reports == most + [last];
      ReportsProcessed(s, most);
      LinesMore(most, last);
      FiledMore(s, most, last);
      ProcessConcat(s, Terminated(Lines(most)), Terminated([LineOf(last)]));
      ReportProcessed(FiledAll(s, most), last);
    }
  }

  lemma NoticeProcessed(s: Store, instance: string)
    requires GoodNotice(instance)
    ensures ProcessCmd(s, TERM_KEY + " " + instance) == (s.(terminated := s.terminated + [instance]), Done)
  {
    assert IsWord(TERM_KEY) && "monitor" <= TERM_KEY;
    TokensAfterBlank(TERM_KEY, instance);
    TokensCons(instance, "");
    assert instance + "" == instance;
    assert TERM_KEY + " " + instance == TERM_KEY + [' '] + instance;
    assert [TERM_KEY, instance][1..] == [instance];
  }

  lemma MessageProcessed(s: Store, m: Message)
    requires GoodMessage(m)
    ensures Output(Received(m)).Some?
    ensures ProcessLines(s, Terminated(Output(Received(m)).value)) == (Stored(s, m), Done)
  {
    if m.key == TERM_KEY {
      ProcessOne(s, TERM_KEY + " " + m.data.instance);
      NoticeProcessed(s, m.data.instance);
    } else {
      var agg := m.data.agg;
      ReportsGood(agg.hostname, agg.tov, agg.domains);
      ReportsProcessed(s, ReportsIn(m));
    }
  }

  lemma {:induction false} AllProcessed(s: Store, messages: seq<Message>)
    requires AllGood(messages)
    ensures OutputAll(messages).1
    ensures ProcessLines(s, Terminated(OutputAll(messages).0)) == (StoredAll(s, messages), Done)
    decreases |messages|
  {
    if messages != [] {
      var most, last := messages[..|messages| - 1], messages[|messages| - 1];
      AllProcessed(s, most);
      MessageProcessed(StoredAll(s, most), last);
      var lines, more := OutputAll(most).0, Output(Received(last)).value;
      TerminatedConcat(lines, more);
      ProcessConcat(s, Terminated(lines), Terminated(more));
    }
  }

  lemma WordsAreLines(s: string)
    requires SpaceFree(s)
    ensures '\n' !in s
  {
  }

  lemma ReportIsLine(r: Report)
    requires GoodReport(r)
    ensures OneLine(LineOf(r))
  {
    NothingTruncated(r);
    KeyIsWord(r);
    ReadingIsWord(r.reading);
    FixedIsWord(r.tov);
    WordsAreLines(FullKey(r.host, r.uuid, r.metric));
    WordsAreLines(ReadingText(r.reading));
    WordsAreLines(PrintFixed(r.tov));
  }

  lemma ReportsAreLines(reports: seq<Report>)
    requires forall i :: 0 <= i < |reports| ==> GoodReport(reports[i])
    ensures forall i :: 0 <= i < |reports| ==> OneLine(Lines(reports)[i])
  {
    forall i | 0 <= i < |reports| ensures OneLine(LineOf(reports[i])) {
      ReportIsLine(reports[i]);
    }
  }

  lemma NoticeIsLine(instance: string)
    requires SpaceFree(instance)
    ensures OneLine(TERM_KEY + " " + instance)
  {
    WordsAreLines(instance);
    assert SpaceFree(TERM_KEY);
    WordsAreLines(TERM_KEY);
  }

  lemma OutputIsLines(m: Message)
    requires GoodMessage(m)
    ensures Output(Received(m)).Some?
    ensures forall i :: 0 <= i < |Output(Received(m)).value| ==> OneLine(Output(Received(m)).value[i])
  {
    if m.key == TERM_KEY {
      NoticeIsLine(m.data.instance);
    } else {
      ReportsGood(m.data.agg.hostname, m.data.agg.tov, m.data.agg.domains);
      ReportsAreLines(ReportsIn(m));
    }
  }

  lemma {:induction false} AllLines(messages: seq<Message>)
    requires AllGood(messages)
    ensures forall i :: 0 <= i < |OutputAll(messages).0| ==> OneLine(OutputAll(messages).0[i])
    decreases |messages|
  {
    if messages != [] {
      AllLines(messages[..|messages| - 1]);
      OutputIsLines(messages[|messages| - 1]);
    }
  }

  /** What the updater reads from the pipe: the text the proxy wrote for these messages. */
  function Stream(messages: seq<Message>): string {
    Written(OutputAll(messages).0)
  }

  /** Reading the proxy's text back files every report of every message, in order, and nothing else;
      the updater never raises. */
  lemma StreamProcessed(s: Store, messages: seq<Message>)
    requires AllGood(messages)
    ensures ProcessLines(s, ReadLines(Stream(messages))) == (StoredAll(s, messages), Done)
  {
    AllLines(messages);
    LinesReadBack(OutputAll(messages).0);
    AllProcessed(s, messages);
  }

  // ---------- what is filed for each metric ----------

  /** The points filed under a path, in order. */
  function Series(points: seq<Point>, path: string): seq<Point> {
    if points == [] then []
    else
      var last := points[|points| - 1];
      Series(points[..|points| - 1], path) + if last.path == path then [last] else []
  }

  /** The points a report adds under the path of a host, UUID and metric. */
  function PointsOf(root: string, r: Report, h: string, uuid: string, metric: string): seq<Point> {
    if r.host == h && r.uuid == uuid && r.metric == metric then [PointOf(root, r)] else []
  }

  lemma PointFiled(s: Store, r: Report, h: string, uuid: string, metric: string)
    requires GoodReport(r) && GoodHost(h) && GoodUuid(uuid) && IsMetric(metric)
    ensures var path := FilePath(s.root, h, uuid, metric);
      Series(Filed(s, r).points, path) == Series(s.points, path) + PointsOf(s.root, r, h, uuid, metric)
    ensures Filed(s, r).root == s.root
  {
    var path := FilePath(s.root, h, uuid, metric);
    MetricText(metric);
    MetricText(r.metric);
    if FilePath(s.root, r.host, r.uuid, r.metric) == path {
      FilePathInjective(s.root, r.host, r.uuid, r.metric, h, uuid, metric);
    }
    var after := Filed(s, r).points;
    assert after[..|after| - 1] == s.points;
  }

  lemma {:induction false} FiledRoot(s: Store, reports: seq<Report>)
    ensures FiledAll(s, reports).root == s.root
    decreases |reports|
  {
    if reports != [] {
      FiledRoot(s, reports[..|reports| - 1]);
    }
  }

  function ReportSeries(root: string, reports: seq<Report>, h: string, uuid: string, metric: string): seq<Point> {
    if reports == [] then []
    else
      ReportSeries(root, reports[..|reports| - 1], h, uuid, metric)
      + PointsOf(root, reports[|reports| - 1], h, uuid, metric)
  }

  lemma {:induction false} ReportsFiled(s: Store, reports: seq<Report>, h: string, uuid: string, metric: string)
    requires forall i :: 0 <= i < |reports| ==> GoodReport(reports[i])
    requires GoodHost(h) && GoodUuid(uuid) && IsMetric(metric)
    ensures var path := FilePath(s.root, h, uuid, metric);
      Series(FiledAll(s, reports).points, path)
        == Series(s.points, path) + ReportSeries(s.root, reports, h, uuid, metric)
    decreases |reports|
  {
    if reports != [] {
      var most, last := reports[..|reports| - 1], reports[|reports| - 1];
      ReportsFiled(s, most, h, uuid, metric);
      FiledRoot(s, most);
      PointFiled(FiledAll(s, most), last, h, uuid, metric);
      var path := FilePath(s.root, h, uuid, metric);
      Assoc(Series(s.points, path), ReportSeries(s.root, most, h, uuid, metric),
            PointsOf(s.root, last, h, uuid, metric));
    } else {
      NothingMore(Series(s.points, FilePath(s.root, h, uuid, metric)));
    }
  }

  lemma NothingMore(points: seq<Point>)
    ensures points + [] == points && [] + points == points
  {
  }

  /** A domain's value for a metric, by the metric's name. */
  function ReadingOf(d: DomainStats, metric: string): Reading {
    if metric == CPU then Share(d.cpu) else if metric == MEM then Share(d.mem)
    else if metric == DISK_READ then Count(d.block.rdReq) else Count(d.block.wrReq)
  }

  /** The points a batch's entry stands for under the path of a host, UUID and metric. */
  function EntrySeries(root: string, host: string, tov: Num, d: DomainStats, h: string, uuid: string,
      metric: string): seq<Point> {
    if host == h && d.uuid == uuid
    then [Point(FilePath(root, h, uuid, metric), Decoded(ReadingOf(d, metric)), Rounded(tov))] else []
  }

  lemma ReportSeriesMore(root: string, most: seq<Report>, last: Report, h: string, uuid: string, metric: string)
    ensures ReportSeries(root, most + [last], h, uuid, metric)
         == ReportSeries(root, most, h, uuid, metric) + PointsOf(root, last, h, uuid, metric)
  {
    assert (most + [last])[..|most|] == most;
  }

  lemma MetricsDiffer()
    ensures CPU != MEM && CPU != DISK_READ && MEM != DISK_READ && CPU != DISK_WRITE && MEM != DISK_WRITE
    ensures DISK_READ != DISK_WRITE
  {
    assert DISK_READ[5] != DISK_WRITE[5] && CPU[0] != MEM[0];
  }

  lemma DomainPoints(root: string, host: string, tov: Num, d: DomainStats, h: string, uuid: string, metric: string)
    requires IsMetric(metric)
    ensures var r := DomainReports(host, tov, d);
      PointsOf(root, r[0], h, uuid, metric) + PointsOf(root, r[1], h, uuid, metric)
        + PointsOf(root, r[2], h, uuid, metric) + PointsOf(root, r[3], h, uuid, metric)
        == EntrySeries(root, host, tov, d, h, uuid, metric)
  {
    MetricsDiffer();
  }

  lemma FourMore(most: seq<Report>, a: Report, b: Report, c: Report, d: Report)
    ensures most + [a, b, c, d] == most + [a] + [b] + [c] + [d]
  {
  }

  lemma DomainSeries(root: string, most: seq<Report>, host: string, tov: Num, d: DomainStats, h: string,
      uuid: string, metric: string)
    requires IsMetric(metric)
    ensures ReportSeries(root, most + DomainReports(host, tov, d), h, uuid, metric)
         == ReportSeries(root, most, h, uuid, metric) + EntrySeries(root, host, tov, d, h, uuid, metric)
  {
    var r := DomainReports(host, tov, d);
    ReportSeriesMore(root, most, r[0], h, uuid, metric);
    ReportSeriesMore(root, most + [r[0]], r[1], h, uuid, metric);
    ReportSeriesMore(root, most + [r[0]] + [r[1]], r[2], h, uuid, metric);
    ReportSeriesMore(root, most + [r[0]] + [r[1]] + [r[2]], r[3], h, uuid, metric);
    FourMore(most, r[0], r[1], r[2], r[3]);
    DomainPoints(root, host, tov, d, h, uuid, metric);
    var z := ReportSeries(root, most, h, uuid, metric);
    var p0, p1 := PointsOf(root, r[0], h, uuid, metric), PointsOf(root, r[1], h, uuid, metric);
    var p2, p3 := PointsOf(root, r[2], h, uuid, metric), PointsOf(root, r[3], h, uuid, metric);
    Assoc(z, p0, p1);
    Assoc(z, p0 + p1, p2);
    Assoc(z, p0 + p1 + p2, p3);
  }

  lemma {:induction false} FiledConcat(s: Store, a: seq<Report>, b: seq<Report>)
    ensures FiledAll(s, a + b) == FiledAll(FiledAll(s, a), b)
    decreases |b|
  {
    if b == [] {
      assert a + b == a;
    } else {
      FiledConcat(s, a, b[..|b| - 1]);
      MostConcat(a, b);
    }
  }

  function BatchSeries(root: string, agg: AggregateStats, n: nat, h: string, uuid: string, metric: string): seq<Point>
    requires n <= |agg.domains|
  {
    if n == 0 then []
    else
      BatchSeries(root, agg, n - 1, h, uuid, metric)
      + EntrySeries(root, agg.hostname, agg.tov, agg.domains[n - 1], h, uuid, metric)
  }

  lemma {:induction false} BatchReports(root: string, agg: AggregateStats, n: nat, h: string, uuid: string,
      metric: string)
    requires IsMetric(metric) && n <= |agg.domains|
    ensures ReportSeries(root, Reports(agg.hostname, agg.tov, agg.domains[..n]), h, uuid, metric)
         == BatchSeries(root, agg, n, h, uuid, metric)
  {
    if n > 0 {
      BatchReports(root, agg, n - 1, h, uuid, metric);
      assert agg.domains[..n][..n - 1] == agg.domains[..n - 1];
      DomainSeries(root, Reports(agg.hostname, agg.tov, agg.domains[..n - 1]), agg.hostname, agg.tov,
                   agg.domains[n - 1], h, uuid, metric);
    }
  }

  function MessageSeries(root: string, m: Message, h: string, uuid: string, metric: string): seq<Point> {
    if m.key != TERM_KEY && m.data.Batch?
    then BatchSeries(root, m.data.agg, |m.data.agg.domains|, h, uuid, metric) else []
  }

  /** What messages carry for a host, UUID and metric, entry by entry, as it is decoded. */
  function MessagesSeries(root: string, messages: seq<Message>, h: string, uuid: string, metric: string): seq<Point> {
    if messages == [] then []
    else
      MessagesSeries(root, messages[..|messages| - 1], h, uuid, metric)
      + MessageSeries(root, messages[|messages| - 1], h, uuid, metric)
  }

  lemma {:induction false} SeriesConcat(root: string, a: seq<Message>, b: seq<Message>, h: string, uuid: string,
      metric: string)
    ensures MessagesSeries(root, a + b, h, uuid, metric)
         == MessagesSeries(root, a, h, uuid, metric) + MessagesSeries(root, b, h, uuid, metric)
    decreases |b|
  {
    if b == [] {
      assert a + b == a;
    } else {
      var most, last := b[..|b| - 1], MessageSeries(root, b[|b| - 1], h, uuid, metric);
      SeriesConcat(root, a, most, h, uuid, metric);
      MostConcat(a, b);
      Assoc(MessagesSeries(root, a, h, uuid, metric), MessagesSeries(root, most, h, uuid, metric), last);
    }
  }

  lemma SeriesOne(root: string, m: Message, h: string, uuid: string, metric: string)
    ensures MessagesSeries(root, [m], h, uuid, metric) == MessageSeries(root, m, h, uuid, metric)
  {
    assert [m][..0] == [];
    NothingMore(MessageSeries(root, m, h, uuid, metric));
  }

  lemma SeriesHead(root: string, messages: seq<Message>, h: string, uuid: string, metric: string)
    requires messages != []
    ensures MessagesSeries(root, messages, h, uuid, metric)
         == MessageSeries(root, messages[0], h, uuid, metric) + MessagesSeries(root, messages[1..], h, uuid, metric)
  {
    assert [messages[0]] + messages[1..] == messages;
    SeriesConcat(root, [messages[0]], messages[1..], h, uuid, metric);
    SeriesOne(root, messages[0], h, uuid, metric);
  }

  /** Losing messages loses points, and does nothing else. */
  lemma {:induction false} SeriesSubseq(root: string, a: seq<Message>, b: seq<Message>, h: string, uuid: string,
      metric: string)
    requires Subseq(a, b)
    ensures Subseq(MessagesSeries(root, a, h, uuid, metric), MessagesSeries(root, b, h, uuid, metric))
    decreases |b|
  {
    if a != [] {
      var first, rest := MessageSeries(root, b[0], h, uuid, metric), MessagesSeries(root, b[1..], h, uuid, metric);
      SeriesHead(root, b, h, uuid, metric);
      if a[0] == b[0] && Subseq(a[1..], b[1..]) {
        SeriesSubseq(root, a[1..], b[1..], h, uuid, metric);
        SeriesHead(root, a, h, uuid, metric);
        Reflexive(first);
        Sequences.Concat(first, first, MessagesSeries(root, a[1..], h, uuid, metric), rest);
      } else {
        SeriesSubseq(root, a, b[1..], h, uuid, metric);
        Sequences.Concat([], first, MessagesSeries(root, a, h, uuid, metric), rest);
        NothingMore(MessagesSeries(root, a, h, uuid, metric));
      }
    }
  }

  lemma MessageFiled(s: Store, m: Message, h: string, uuid: string, metric: string)
    requires GoodMessage(m) && GoodHost(h) && GoodUuid(uuid) && IsMetric(metric)
    ensures var path := FilePath(s.root, h, uuid, metric);
      Series(Stored(s, m).points, path) == Series(s.points, path) + MessageSeries(s.root, m, h, uuid, metric)
    ensures Stored(s, m).root == s.root
  {
    if m.key == TERM_KEY {
      NothingMore(Series(s.points, FilePath(s.root, h, uuid, metric)));
    } else {
      var agg := m.data.agg;
      ReportsGood(agg.hostname, agg.tov, agg.domains);
      ReportsFiled(s, ReportsIn(m), h, uuid, metric);
      BatchReports(s.root, agg, |agg.domains|, h, uuid, metric);
      assert agg.domains[..|agg.domains|] == agg.domains;
      FiledRoot(s, ReportsIn(m));
    }
  }

  /** For every host, UUID and metric the store holds exactly what the messages carried for it: each value
      of each batch once, in order, counts exactly and shares and times to six decimals. */
  lemma {:induction false} SeriesFiled(s: Store, messages: seq<Message>, h: string, uuid: string, metric: string)
    requires AllGood(messages) && GoodHost(h) && GoodUuid(uuid) && IsMetric(metric)
    ensures var path := FilePath(s.root, h, uuid, metric);
      Series(StoredAll(s, messages).points, path)
        == Series(s.points, path) + MessagesSeries(s.root, messages, h, uuid, metric)
    ensures StoredAll(s, messages).root == s.root
    decreases |messages|
  {
    var path := FilePath(s.root, h, uuid, metric);
    if messages != [] {
      var most, last := messages[..|messages| - 1], messages[|messages| - 1];
      SeriesFiled(s, most, h, uuid, metric);
      MessageFiled(StoredAll(s, most), last, h, uuid, metric);
      Assoc(Series(s.points, path), MessagesSeries(s.root, most, h, uuid, metric),
            MessageSeries(s.root, last, h, uuid, metric));
    } else {
      NothingMore(Series(s.points, path));
    }
  }

  /** Through the pipe into an empty store, likewise. */
  lemma StreamFiled(root: string, messages: seq<Message>, h: string, uuid: string, metric: string)
    requires AllGood(messages) && GoodHost(h) && GoodUuid(uuid) && IsMetric(metric)
    ensures var s := ProcessLines(Store(root, {}, [], []), ReadLines(Stream(messages))).0;
      Series(s.points, FilePath(root, h, uuid, metric)) == MessagesSeries(root, messages, h, uuid, metric)
  {
    var empty := Store(root, {}, [], []);
    StreamProcessed(empty, messages);
    SeriesFiled(empty, messages, h, uuid, metric);
    NothingMore(MessagesSeries(root, messages, h, uuid, metric));
  }

  // ---------- sums of decoded values ----------

  function ValueSum(points: seq<Point>): real {
    if points == [] then 0.0 else ValueSum(points[..|points| - 1]) + Value(points[|points| - 1].value)
  }

  /** The counters that are printed, with their metric names. */
  function MetricOf(k: Counter): string
    requires k.DiskReadReq? || k.DiskWriteReq?
  {
    if k.DiskReadReq? then DISK_READ else DISK_WRITE
  }

  // ---------- terminations ----------

  /** The texts of the notices among these messages, in order. */
  function NoticeTexts(messages: seq<Message>): seq<string> {
    if messages == [] then []
    else
      var last := messages[|messages| - 1];
      NoticeTexts(messages[..|messages| - 1])
      + if last.key == TERM_KEY && last.data.Notice? then [last.data.instance] else []
  }

  lemma {:induction false} FiledTerminated(s: Store, reports: seq<Report>)
    ensures FiledAll(s, reports).terminated == s.terminated
    decreases |reports|
  {
    if reports != [] {
      FiledTerminated(s, reports[..|reports| - 1]);
    }
  }

  lemma {:induction false} StoredTexts(s: Store, messages: seq<Message>)
    ensures StoredAll(s, messages).terminated == s.terminated + NoticeTexts(messages)
    decreases |messages|
  {
    if messages == [] {
      assert s.terminated + [] == s.terminated;
    } else {
      var most, last := messages[..|messages| - 1], messages[|messages| - 1];
      var text := if last.key == TERM_KEY && last.data.Notice? then [last.data.instance] else [];
      StoredTexts(s, most);
      FiledTerminated(StoredAll(s, most), ReportsIn(last));
      Assoc(s.terminated, NoticeTexts(most), text);
      assert StoredAll(s, most).terminated + [] == StoredAll(s, most).terminated;
    }
  }

  // ---------- the files created ----------

  function AllReports(messages: seq<Message>): seq<Report> {
    if messages == [] then [] else AllReports(messages[..|messages| - 1]) + ReportsIn(messages[|messages| - 1])
  }

  lemma {:induction false} StoredReports(s: Store, messages: seq<Message>)
    requires AllGood(messages)
    ensures StoredAll(s, messages).files == FiledAll(s, AllReports(messages)).files
    ensures forall i :: 0 <= i < |AllReports(messages)| ==> GoodReport(AllReports(messages)[i])
    ensures StoredAll(s, messages).root == s.root
    decreases |messages|
  {
    if messages != [] {
      var most, last := messages[..|messages| - 1], messages[|messages| - 1];
      StoredReports(s, most);
      FiledConcat(s, AllReports(most), ReportsIn(last));
      FiledRoot(s, AllReports(most));
      FiledFiles(StoredAll(s, most), FiledAll(s, AllReports(most)), ReportsIn(last));
      FiledRoot(StoredAll(s, most), ReportsIn(last));
      if last.key != TERM_KEY {
        ReportsGood(last.data.agg.hostname, last.data.agg.tov, last.data.agg.domains);
      }
    }
  }

  lemma {:induction false} FiledFiles(a: Store, b: Store, reports: seq<Report>)
    requires a.files == b.files && a.root == b.root
    ensures FiledAll(a, reports).files == FiledAll(b, reports).files
    decreases |reports|
  {
    if reports != [] {
      FiledFiles(a, b, reports[..|reports| - 1]);
      FiledRoot(a, reports[..|reports| - 1]);
      FiledRoot(b, reports[..|reports| - 1]);
    }
  }

  lemma StoredPathMore(root: string, reports: seq<Report>, f: string)
    requires reports != []
    ensures var most, r := reports[..|reports| - 1], reports[|reports| - 1];
      StoredPath(root, reports, f) <==> StoredPath(root, most, f) || f == FilePath(root, r.host, r.uuid, r.metric)
  {
    var most := reports[..|reports| - 1];
    assert forall i :: 0 <= i < |most| ==> reports[i] == most[i];
  }

  lemma FiledFile(s: Store, r: Report, f: string)
    ensures f in Filed(s, r).files <==> f in s.files || f == FilePath(s.root, r.host, r.uuid, r.metric)
  {
  }

  lemma {:induction false} FilesAreReported(s: Store, reports: seq<Report>, f: string)
    requires s.files == {}
    ensures f in FiledAll(s, reports).files <==> StoredPath(s.root, reports, f)
    decreases |reports|
  {
    if reports != [] {
      var most := reports[..|reports| - 1];
      FilesAreReported(s, most, f);
      FiledRoot(s, most);
      FiledFile(FiledAll(s, most), reports[|reports| - 1], f);
      StoredPathMore(s.root, reports, f);
    }
  }

  /** After any messages have gone through the pipe into an empty store, querying any listing of it by
      instance and metric returns exactly the files of that instance and metric that were reported. */
  lemma DashboardAgrees(root: string, messages: seq<Message>, listing: seq<string>, uuid: string, metric: string,
      f: string)
    requires AllGood(messages) && GoodUuid(uuid) && IsMetric(metric)
    requires forall g :: g in listing <==>
      g in ProcessLines(Store(root, {}, [], []), ReadLines(Stream(messages))).0.files
    ensures var reports := AllReports(messages);
      f in Select(Select(listing, 2, uuid), 1, metric) <==>
        exists i :: 0 <= i < |reports| && reports[i].uuid == uuid && reports[i].metric == metric
          && f == FilePath(root, reports[i].host, uuid, metric)
    ensures AllDeep(listing, 3)
  {
    var s, reports := Store(root, {}, [], []), AllReports(messages);
    StreamProcessed(s, messages);
    StoredReports(s, messages);
    forall g ensures g in listing <==> StoredPath(root, reports, g) {
      FilesAreReported(s, reports, g);
    }
    QueriesAgree(root, reports, listing, uuid, metric, f);
  }
}
