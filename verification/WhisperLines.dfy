/** get_whisper_updates of src/common.cc: one text line per domain and metric. */
module WhisperLines {
  import opened Numerals
  import opened Stats
  import opened Text
  import opened Trackers

  /** A value as the printer sees it: a double for %f or a long long for %lld. */
  datatype Reading = Share(n: Num) | Count(i: Int64)

  /** One update of one metric of one domain. */
  datatype Report = Report(host: string, uuid: string, metric: string, reading: Reading, tov: Num)

  const CPU: string := "cpu"
  const MEM: string := "mem"
  const DISK_READ: string := "disk_read_req"
  const DISK_WRITE: string := "disk_write_req"

  function ReadingText(r: Reading): string {
    match r
    case Share(n) => PrintFixed(n)
    case Count(i) => PrintInt(i)
  }

  function FullKey(host: string, uuid: string, metric: string): string {
    SERVERS_PREFIX + host + "." + uuid + "." + metric
  }

  function StatKey(host: string, uuid: string, metric: string): string {
    Snprintf(512, FullKey(CStr(host), CStr(uuid), metric))
  }

  /** "%s %f %f" or "%s %lld %f" into the line buffer, the values already printed. */
  function FormatLine(statKey: string, value: string, tov: string): string {
    Snprintf(1024, statKey + " " + value + " " + tov)
  }

  function LineOf(r: Report): string {
    FormatLine(StatKey(r.host, r.uuid, r.metric), ReadingText(r.reading), PrintFixed(r.tov))
  }

  function DomainReports(host: string, tov: Num, d: DomainStats): seq<Report> {
    [Report(host, d.uuid, CPU, Share(d.cpu), tov),
     Report(host, d.uuid, MEM, Share(d.mem), tov),
     Report(host, d.uuid, DISK_READ, Count(d.block.rdReq), tov),
     Report(host, d.uuid, DISK_WRITE, Count(d.block.wrReq), tov)]
  }

  function Reports(host: string, tov: Num, domains: seq<DomainStats>): seq<Report> {
    if domains == [] then []
    else Reports(host, tov, domains[..|domains| - 1]) + DomainReports(host, tov, domains[|domains| - 1])
  }

  function Lines(reports: seq<Report>): (r: seq<string>)
    ensures |r| == |reports|
    ensures forall i :: 0 <= i < |r| ==> r[i] == LineOf(reports[i])
  {
    seq(|reports|, i requires 0 <= i < |reports| => LineOf(reports[i]))
  }

  /** The loop of get_whisper_updates, filling the key and line buffers for each metric in turn. */
  method GetWhisperUpdates(agg: AggregateStats) returns (out: seq<string>)
    ensures out == Lines(Reports(agg.hostname, agg.tov, agg.domains))
  {
    out := [];
    for i := 0 to |agg.domains|
      invariant out == Lines(Reports(agg.hostname, agg.tov, agg.domains[..i]))
    {
      var more := DomainLines(agg.hostname, agg.tov, agg.domains[i]);
      ReportsStep(agg.hostname, agg.tov, agg.domains, i);
      out := out + more;
    }
    assert agg.domains[..|agg.domains|] == agg.domains;
  }

  /** One pair of snprintf calls, into the key buffer and then the line buffer, and the push_back. */
  method PushLine(out: seq<string>, ghost done: seq<Report>, r: Report) returns (longer: seq<string>)
    requires out == Lines(done)
    ensures longer == Lines(done + [r])
  {
    var statKey := StatKey(r.host, r.uuid, r.metric);
    var value := match r.reading { case Share(n) => PrintFixed(n) case Count(i) => PrintInt(i) };
    longer := out + [FormatLine(statKey, value, PrintFixed(r.tov))];
    LinesAppend(done, r);
  }

  /** The body of that loop, one metric after the other. */
  method DomainLines(host: string, tov: Num, dom: DomainStats) returns (out: seq<string>)
    ensures out == Lines(DomainReports(host, tov, dom))
  {
    ghost var r := DomainReports(host, tov, dom);
    out := PushLine([], [], Report(host, dom.uuid, CPU, Share(dom.cpu), tov));
    out := PushLine(out, r[..1], Report(host, dom.uuid, MEM, Share(dom.mem), tov));
    out := PushLine(out, r[..2], Report(host, dom.uuid, DISK_READ, Count(dom.block.rdReq), tov));
    out := PushLine(out, r[..3], Report(host, dom.uuid, DISK_WRITE, Count(dom.block.wrReq), tov));
    assert r[..3] + [r[3]] == r;
  }

  lemma LinesAppend(reports: seq<Report>, r: Report)
    ensures Lines(reports + [r]) == Lines(reports) + [LineOf(r)]
  {
  }

  lemma {:induction false} ReportsCount(host: string, tov: Num, domains: seq<DomainStats>)
    ensures |Reports(host, tov, domains)| == 4 * |domains|
    decreases |domains|
  {
    if domains != [] {
      ReportsCount(host, tov, domains[..|domains| - 1]);
    }
  }

  /** Each domain has its four reports together, in the batch's order of domains. */
  lemma {:induction false} ReportsInOrder(host: string, tov: Num, domains: seq<DomainStats>, i: nat)
    requires i < |domains|
    ensures |Reports(host, tov, domains)| == 4 * |domains|
    ensures Reports(host, tov, domains)[4 * i..4 * i + 4] == DomainReports(host, tov, domains[i])
    decreases |domains|
  {
    var n := |domains| - 1;
    ReportsCount(host, tov, domains);
    ReportsCount(host, tov, domains[..n]);
    if i < n {
      ReportsInOrder(host, tov, domains[..n], i);
    }
  }

  lemma ReportsStep(host: string, tov: Num, domains: seq<DomainStats>, i: nat)
    requires i < |domains|
    ensures Lines(Reports(host, tov, domains[..i + 1]))
         == Lines(Reports(host, tov, domains[..i])) + Lines(DomainReports(host, tov, domains[i]))
  {
    assert domains[..i + 1][..i] == domains[..i];
  }

  // ---------- the buffers are large enough ----------

  predicate GoodHost(host: string) {
    |host| <= 443 && SpaceFree(host) && '/' !in host && '\0' !in host
  }

  /** The 36 characters of a UUID (section 3 of RFC 4122) include none that the formats treat specially. */
  predicate GoodUuid(uuid: string) {
    |uuid| == 36 && SpaceFree(uuid) && '/' !in uuid && '\0' !in uuid && '.' !in uuid
  }

  predicate IsMetric(metric: string) {
    metric == CPU || metric == MEM || metric == DISK_READ || metric == DISK_WRITE
  }

  /** Shares up to 2^64, and times up to 2^64 seconds, more than a 64-bit time_t holds. */
  predicate GoodReport(r: Report) {
    && GoodHost(r.host) && GoodUuid(r.uuid) && IsMetric(r.metric)
    && (r.reading.Share? ==> Bounded(r.reading.n, TWO_64))
    && Bounded(r.tov, TWO_64)
  }

  /** Whatever is printed, the key fills at most 511 and the line at most 1023 characters, each cut off only
      where its buffer ends. */
  lemma BuffersHold(r: Report)
    ensures var key, kept := FullKey(CStr(r.host), CStr(r.uuid), r.metric), StatKey(r.host, r.uuid, r.metric);
      kept <= key && |kept| == if |key| <= 511 then |key| else 511
    ensures var line := StatKey(r.host, r.uuid, r.metric) + " " + ReadingText(r.reading) + " " + PrintFixed(r.tov);
      LineOf(r) <= line && |LineOf(r)| == if |line| <= 1023 then |line| else 1023
  {
  }

  /** A key survives its 512-byte buffer exactly when host, UUID and metric take at most 493 characters. */
  lemma KeyFits(host: string, uuid: string, metric: string)
    requires '\0' !in host && '\0' !in uuid
    ensures StatKey(host, uuid, metric) == FullKey(host, uuid, metric) <==> |host| + |uuid| + |metric| <= 493
  {
  }

  lemma MetricText(metric: string)
    requires IsMetric(metric)
    ensures 3 <= |metric| <= 14 && SpaceFree(metric) && '/' !in metric && '.' !in metric
  {
  }

  lemma ReadingFits(r: Report)
    requires GoodReport(r)
    ensures |ReadingText(r.reading)| <= 28 && |PrintFixed(r.tov)| <= 28
  {
    Pow10Values();
    match r.reading {
      case Share(n) => FixedLength(n, 20);
      case Count(i) => IntLength(i, 19);
    }
    FixedLength(r.tov, 20);
  }

  /** No key and no line of a good report is cut short. */
  lemma NothingTruncated(r: Report)
    requires GoodReport(r)
    ensures |FullKey(r.host, r.uuid, r.metric)| <= 511
      && StatKey(r.host, r.uuid, r.metric) == FullKey(r.host, r.uuid, r.metric)
    ensures |LineOf(r)| <= 1023
    ensures LineOf(r) == FullKey(r.host, r.uuid, r.metric) + " " + ReadingText(r.reading) + " " + PrintFixed(r.tov)
  {
    MetricText(r.metric);
    KeyFits(r.host, r.uuid, r.metric);
    ReadingFits(r);
  }

  // ---------- good reports come from good batches ----------

  predicate GoodEntry(d: DomainStats) {
    GoodUuid(d.uuid) && Bounded(d.cpu, TWO_64) && Bounded(d.mem, TWO_64)
  }

  predicate GoodBatch(agg: AggregateStats) {
    && GoodHost(agg.hostname) && Bounded(agg.tov, TWO_64)
    && forall i :: 0 <= i < |agg.domains| ==> GoodEntry(agg.domains[i])
  }

  lemma {:induction false} ReportsGood(host: string, tov: Num, domains: seq<DomainStats>)
    requires GoodBatch(AggregateStats(tov, host, domains))
    ensures forall i :: 0 <= i < |Reports(host, tov, domains)| ==> GoodReport(Reports(host, tov, domains)[i])
    decreases |domains|
  {
    if domains != [] {
      var n := |domains| - 1;
      ReportsGood(host, tov, domains[..n]);
      assert GoodEntry(domains[n]);
    }
  }

  /** The text of an update line. */
  function UpdateLine(host: string, uuid: string, name: string, value: string, tov: Num): string {
    "monitor.servers." + host + "." + uuid + "." + name + " " + value + " " + PrintFixed(tov)
  }

  /** A report's line before any buffer cuts it. */
  function FullLine(r: Report): string {
    FullKey(r.host, r.uuid, r.metric) + " " + ReadingText(r.reading) + " " + PrintFixed(r.tov)
  }

  lemma FullLineText(r: Report)
    ensures FullLine(r) == UpdateLine(r.host, r.uuid, r.metric, ReadingText(r.reading), r.tov)
  {
  }

  /** Domain i's lines are the (4i)th to (4i + 3)rd: its CPU and memory shares, then its disk reads and writes. */
  lemma UpdateLines(agg: AggregateStats, i: nat)
    requires GoodBatch(agg) && i < |agg.domains|
    ensures var lines, d := Lines(Reports(agg.hostname, agg.tov, agg.domains)), agg.domains[i];
      && |lines| == 4 * |agg.domains|
      && lines[4 * i] == UpdateLine(agg.hostname, d.uuid, "cpu", PrintFixed(d.cpu), agg.tov)
      && lines[4 * i + 1] == UpdateLine(agg.hostname, d.uuid, "mem", PrintFixed(d.mem), agg.tov)
      && lines[4 * i + 2] == UpdateLine(agg.hostname, d.uuid, "disk_read_req", PrintInt(d.block.rdReq), agg.tov)
      && lines[4 * i + 3] == UpdateLine(agg.hostname, d.uuid, "disk_write_req", PrintInt(d.block.wrReq), agg.tov)
  {
    var all := Reports(agg.hostname, agg.tov, agg.domains);
    var four := DomainReports(agg.hostname, agg.tov, agg.domains[i]);
    ReportsInOrder(agg.hostname, agg.tov, agg.domains, i);
    ReportsGood(agg.hostname, agg.tov, agg.domains);
    forall j | 0 <= j < 4 ensures all[4 * i + j] == four[j] && LineOf(all[4 * i + j]) == FullLine(four[j]) {
      assert all[4 * i..4 * i + 4][j] == all[4 * i + j];
      NothingTruncated(all[4 * i + j]);
    }
    assert all[4 * i + 0] == four[0];
    FullLineText(four[0]);
    FullLineText(four[1]);
    FullLineText(four[2]);
    FullLineText(four[3]);
  }
}
