/** src/DomainStatTracker.cc: counter deltas and utilisation of one domain. */
module Trackers {
  import opened Numerals
  import opened Stats
  import opened Text
  import opened Timespecs

  datatype DomainInfo = DomainInfo(cpuTime: UInt64, memory: UInt64, maxMem: UInt64)

  /** What the environment answers during one update: a failed call (None) leaves its struct alone. */
  datatype Sample = Sample(now: Timespec, info: Option<DomainInfo>, block: Option<BlockStats>, net: Option<NetStats>)

  /** What the constructor finds: the UUID, the clock, and the contents of the structs it allocates. */
  datatype Birth = Birth(uuid: string, now: Timespec, info: DomainInfo, tmpInfo: DomainInfo,
                         block: BlockStats, lastBlock: BlockStats, net: NetStats, lastNet: NetStats)

  datatype TrackerState = TrackerState(
    id: int, uuid: string, lastTov: Timespec, info: DomainInfo, tmpInfo: DomainInfo,
    block: BlockStats, lastBlock: BlockStats, net: NetStats, lastNet: NetStats)
  {
    /** The counter value the next delta is taken against. */
    function Last(c: Counter): Int64 { Pick(c, lastBlock, lastNet) }

    /** The counter value of the newest successful sample. */
    function Current(c: Counter): Int64 { Pick(c, block, net) }

    predicate NonNegative(c: Counter) { 0 <= Last(c) && 0 <= Current(c) }
  }

  function Born(id: int, b: Birth): TrackerState {
    TrackerState(id, b.uuid, b.now, b.info, b.tmpInfo, b.block, b.lastBlock, b.net, b.lastNet)
  }

  function Or<T>(o: Option<T>, x: T): T {
    if o.Some? then o.value else x
  }

  /** n / d for doubles with n not negative. */
  function Quotient(n: nat, d: real): Num {
    if d > 0.0 then Finite(false, n as real / d)
    else if d < 0.0 then Finite(true, n as real / -d)
    else if n == 0 then NaN
    else Infinite(false)
  }

  function Scaled(n: Num): Num {
    match n
    case Finite(neg, mag) => Finite(neg, mag / 1000000000.0)
    case _ => n
  }

  function Elapsed(t: TrackerState, s: Sample): real {
    ToReal(TsDiff(s.now, t.lastTov))
  }

  /** CPU nanoseconds since the previous update, by unsigned 64-bit subtraction. */
  function Ticks(t: TrackerState, s: Sample): UInt64 {
    SubUnsigned(Or(s.info, t.tmpInfo).cpuTime, t.info.cpuTime)
  }

  /** One update of a tracker. Domain 0 is never sampled. */
  function Updated(t: TrackerState, s: Sample): (r: (TrackerState, DomainStats)) {
    if t.id == 0 then
      (t, DomainStats(t.id, t.uuid, Finite(false, 0.0), Finite(false, 0.0), NO_BLOCK, NO_NET))
    else
      var info, block, net := Or(s.info, t.tmpInfo), Or(s.block, t.block), Or(s.net, t.net);
      var cpu := Scaled(Quotient(Ticks(t, s), Elapsed(t, s)));
      var mem := Quotient(info.memory, info.maxMem as real);
      (TrackerState(t.id, t.uuid, s.now, info, info, block, block, net, net),
       DomainStats(t.id, t.uuid, cpu, mem, block.Minus(t.lastBlock), net.Minus(t.lastNet)))
  }

  class DomainStatTracker {
    const domainId: int
    const domainUuid: string
    var lastTov: Timespec
    var domainInfo: DomainInfo
    var tmpInfo: DomainInfo
    var blockStats: BlockStats
    var lastBlockStats: BlockStats
    var interfaceInfo: NetStats
    var lastInterfaceInfo: NetStats
    /** The state at construction, for stating what a lifetime adds up to. */
    ghost const birth: TrackerState
    /** Every sample so far. */
    ghost var samples: seq<Sample>
    /** Cleared by the destructor; every use requires it. */
    ghost var alive: bool

    ghost function View(): TrackerState
      reads this
    {
      TrackerState(domainId, domainUuid, lastTov, domainInfo, tmpInfo,
                   blockStats, lastBlockStats, interfaceInfo, lastInterfaceInfo)
    }

    constructor (id: int, b: Birth)
      ensures View() == birth == Born(id, b) && domainId == id && alive && samples == []
    {
      domainId, domainUuid, lastTov := id, b.uuid, b.now;
      domainInfo, tmpInfo := b.info, b.tmpInfo;
      blockStats, lastBlockStats := b.block, b.lastBlock;
      interfaceInfo, lastInterfaceInfo := b.net, b.lastNet;
      birth, samples := Born(id, b), [];
      alive := true;
    }

    method Delete()
      requires alive
      modifies this`alive
      ensures !alive
    {
      alive := false;
    }

    method Update(s: Sample) returns (out: DomainStats)
      requires alive
      modifies this
      ensures alive && (View(), out) == Updated(old(View()), s) && samples == old(samples) + [s]
    {
      samples := samples + [s];
      if domainId == 0 {
        return DomainStats(domainId, domainUuid, Finite(false, 0.0), Finite(false, 0.0), NO_BLOCK, NO_NET);
      }
      if s.info.Some? { tmpInfo := s.info.value; }
      var prevTov := lastTov;
      lastTov := s.now;
      if s.block.Some? { blockStats := s.block.value; }
      var elapsed := ToReal(TsDiff(lastTov, prevTov));
      var cputimeDiff := SubUnsigned(tmpInfo.cpuTime, domainInfo.cpuTime);
      var cpu := Scaled(Quotient(cputimeDiff, elapsed));
      var mem := Quotient(tmpInfo.memory, tmpInfo.maxMem as real);
      domainInfo := tmpInfo;
      var disk := blockStats.Minus(lastBlockStats);
      lastBlockStats := blockStats;
      if s.net.Some? { interfaceInfo := s.net.value; }
      var net := interfaceInfo.Minus(lastInterfaceInfo);
      lastInterfaceInfo := interfaceInfo;
      out := DomainStats(domainId, domainUuid, cpu, mem, disk, net);
    }
  }

  // ---------- one update ----------

  /** Equality, or only equality modulo 2^64 when a 64-bit subtraction may have wrapped. */
  predicate Agree(exact: bool, a: int, b: int) {
    if exact then a == b else (a - b) % TWO_64 == 0
  }

  lemma AgreeByWraps(exact: bool, a: int, b: int, wraps: int)
    requires a == b + TWO_64 * wraps && (exact ==> wraps == 0)
    ensures Agree(exact, a, b)
  {
  }

  function Delta(d: DomainStats, c: Counter): Int64 {
    Pick(c, d.block, d.net)
  }

  /** The value of a counter that a sample brings, if the call that supplies it succeeded. */
  function FetchedValue(s: Sample, c: Counter): Option<Int64> {
    if OfBlock(c) then match s.block { case Some(b) => Some(Pick(c, b, NO_NET)) case None => None }
    else match s.net { case Some(n) => Some(Pick(c, NO_BLOCK, n)) case None => None }
  }

  predicate Fetched(s: Sample, c: Counter) {
    FetchedValue(s, c).Some?
  }

  /** A successful sample reaches the structs and the counters. */
  lemma SampleReaches(t: TrackerState, s: Sample, c: Counter)
    requires t.id != 0
    ensures s.info.Some? ==> Updated(t, s).0.info == Updated(t, s).0.tmpInfo == s.info.value
    ensures s.block.Some? ==> Updated(t, s).0.block == Updated(t, s).0.lastBlock == s.block.value
    ensures s.net.Some? ==> Updated(t, s).0.net == Updated(t, s).0.lastNet == s.net.value
    ensures Fetched(s, c) ==> Updated(t, s).0.Current(c) == Updated(t, s).0.Last(c) == FetchedValue(s, c).value
    ensures Updated(t, s).0.lastTov == s.now
  {
    PickOwn(c, Or(s.block, t.block), Or(s.net, t.net));
  }

  lemma PickOwn(c: Counter, b: BlockStats, n: NetStats)
    ensures Pick(c, b, n) == if OfBlock(c) then Pick(c, b, NO_NET) else Pick(c, NO_BLOCK, n)
  {
  }

  /** The thirteen counters are all there is to the two structs. */
  lemma CountersDetermine(b: BlockStats, n: NetStats, b': BlockStats, n': NetStats)
    requires forall c :: Pick(c, b, n) == Pick(c, b', n')
    ensures b == b' && n == n'
  {
    assert Pick(DiskReadReq, b, n) == Pick(DiskReadReq, b', n');
    assert Pick(DiskWriteReq, b, n) == Pick(DiskWriteReq, b', n');
    assert Pick(DiskReadSize, b, n) == Pick(DiskReadSize, b', n');
    assert Pick(DiskWriteSize, b, n) == Pick(DiskWriteSize, b', n');
    assert Pick(DiskErrors, b, n) == Pick(DiskErrors, b', n');
    assert Pick(RxBytes, b, n) == Pick(RxBytes, b', n') && Pick(RxPackets, b, n) == Pick(RxPackets, b', n');
    assert Pick(RxErrs, b, n) == Pick(RxErrs, b', n') && Pick(RxDrop, b, n) == Pick(RxDrop, b', n');
    assert Pick(TxBytes, b, n) == Pick(TxBytes, b', n') && Pick(TxPackets, b, n) == Pick(TxPackets, b', n');
    assert Pick(TxErrs, b, n) == Pick(TxErrs, b', n') && Pick(TxDrop, b, n) == Pick(TxDrop, b', n');
  }

  /** Domain 0 is never sampled and reports nothing but zeros. */
  lemma DomainZero(t: TrackerState, s: Sample, c: Counter)
    requires t.id == 0
    ensures Updated(t, s).0 == t && Updated(t, s).1.id == 0 && Updated(t, s).1.uuid == t.uuid
    ensures Updated(t, s).1.cpu == Updated(t, s).1.mem == Finite(false, 0.0) && Delta(Updated(t, s).1, c) == 0
  {
    assert Pick(c, NO_BLOCK, NO_NET) == 0;
  }

  /** How far an update moves the reference counter, as a mathematical integer. */
  function Movement(t: TrackerState, s: Sample, c: Counter): int {
    Updated(t, s).0.Last(c) - t.Last(c)
  }

  /** The movement is a signed 64-bit number. */
  predicate Fits(t: TrackerState, s: Sample, c: Counter) {
    -TWO_63 <= Movement(t, s, c) < TWO_63
  }

  lemma PickMinus(c: Counter, b: BlockStats, n: NetStats, b': BlockStats, n': NetStats)
    ensures Pick(c, b.Minus(b'), n.Minus(n')) == Sub64(Pick(c, b, n), Pick(c, b', n'))
  {
  }

  lemma DeltaSubtracts(t: TrackerState, s: Sample, c: Counter)
    ensures Delta(Updated(t, s).1, c) == Sub64(Updated(t, s).0.Last(c), t.Last(c))
  {
    if t.id == 0 {
      assert Pick(c, NO_BLOCK, NO_NET) == 0;
    } else {
      PickMinus(c, Or(s.block, t.block), Or(s.net, t.net), t.lastBlock, t.lastNet);
    }
  }

  /** A delta is what the counter moved since the last one, up to wraps of 2^64; it is exactly that if and
      only if the movement fits. */
  lemma UpdateDelta(t: TrackerState, s: Sample, c: Counter) returns (wraps: int)
    ensures Delta(Updated(t, s).1, c) == Movement(t, s, c) + TWO_64 * wraps
    ensures Delta(Updated(t, s).1, c) == Movement(t, s, c) <==> Fits(t, s, c)
    ensures wraps == 0 <==> Fits(t, s, c)
    ensures t.id != 0 && Fetched(s, c) ==> Movement(t, s, c) == FetchedValue(s, c).value - t.Last(c)
  {
    if t.id != 0 { SampleReaches(t, s, c); }
    DeltaSubtracts(t, s, c);
    wraps := if Fits(t, s, c) then 0 else if Movement(t, s, c) < 0 then 1 else -1;
  }

  /** The counter does not read negative in this sample, if it was fetched at all. */
  predicate PlainSample(s: Sample, c: Counter) {
    0 <= Pick(c, Or(s.block, NO_BLOCK), Or(s.net, NO_NET))
  }

  /** A counter that never reads negative never moves too far. */
  lemma StaysNonNegative(t: TrackerState, s: Sample, c: Counter)
    requires t.NonNegative(c) && PlainSample(s, c)
    ensures Updated(t, s).0.NonNegative(c) && Fits(t, s, c)
  {
  }

  /** From the first update on the reference value is the current one, so a sample that failed to fetch the
      counter adds 0, whether or not the tracker's other call succeeded. */
  lemma FailedSample(t: TrackerState, s: Sample, c: Counter)
    requires t.id != 0
    ensures Updated(t, s).0.Last(c) == Updated(t, s).0.Current(c)
    ensures !Fetched(s, c) ==>
      Updated(t, s).0.Current(c) == t.Current(c) && Delta(Updated(t, s).1, c) == Sub64(t.Current(c), t.Last(c))
    ensures !Fetched(s, c) && t.Last(c) == t.Current(c) ==> Delta(Updated(t, s).1, c) == 0
  {
    DeltaSubtracts(t, s, c);
  }

  /** Likewise a failed CPU sample accounts for no CPU time, the next success for all of it. */
  lemma FailedInfo(t: TrackerState, s: Sample)
    requires t.id != 0
    ensures Updated(t, s).0.info == Updated(t, s).0.tmpInfo
    ensures s.info.None? && t.info == t.tmpInfo ==> Ticks(t, s) == 0 && Updated(t, s).0.info == t.info
  {
  }

  // ---------- whole lifetimes ----------

  function RunTracker(t: TrackerState, samples: seq<Sample>): (r: (TrackerState, seq<DomainStats>))
    ensures |r.1| == |samples|
  {
    if samples == [] then (t, [])
    else
      var (t1, outs) := RunTracker(t, samples[..|samples| - 1]);
      var (t2, out) := Updated(t1, samples[|samples| - 1]);
      (t2, outs + [out])
  }

  function Total(outs: seq<DomainStats>, c: Counter): int {
    if outs == [] then 0 else Total(outs[..|outs| - 1], c) + Delta(outs[|outs| - 1], c)
  }

  lemma RunTrackerMore(t: TrackerState, samples: seq<Sample>, s: Sample)
    ensures var (t1, outs) := RunTracker(t, samples);
      RunTracker(t, samples + [s]) == (Updated(t1, s).0, outs + [Updated(t1, s).1])
  {
    assert (samples + [s])[..|samples|] == samples;
  }

  lemma TotalMore(outs: seq<DomainStats>, out: DomainStats, c: Counter)
    ensures Total(outs + [out], c) == Total(outs, c) + Delta(out, c)
  {
    assert (outs + [out])[..|outs|] == outs;
  }

  /** The newest value of a counter that the samples bring, or the initial one if none does. */
  function Newest(samples: seq<Sample>, c: Counter, initial: Int64): Int64 {
    if samples == [] then initial
    else
      match FetchedValue(samples[|samples| - 1], c)
      case Some(value) => value
      case None => Newest(samples[..|samples| - 1], c, initial)
  }

  /** Likewise the newest CPU and memory figures. */
  function NewestInfo(samples: seq<Sample>, initial: DomainInfo): DomainInfo {
    if samples == [] then initial
    else
      match samples[|samples| - 1].info
      case Some(info) => info
      case None => NewestInfo(samples[..|samples| - 1], initial)
  }

  /** How far the samples move a counter from the reference held at construction. */
  function Moved(t: TrackerState, samples: seq<Sample>, c: Counter): int {
    if t.id == 0 || samples == [] then 0 else Newest(samples, c, t.Current(c)) - t.Last(c)
  }

  /** A tracker holds what its samples brought last: the reference and current counters are the newest
      successfully sampled value, and likewise the CPU figures. Domain 0 never moves. */
  lemma {:induction false} LifetimeEnds(t: TrackerState, samples: seq<Sample>, c: Counter)
    ensures var end := RunTracker(t, samples).0;
      && end.id == t.id && end.uuid == t.uuid
      && (t.id == 0 || samples == [] ==> end == t)
      && (t.id != 0 && samples != [] ==>
            end.Last(c) == end.Current(c) == Newest(samples, c, t.Current(c))
            && end.info == end.tmpInfo == NewestInfo(samples, t.tmpInfo))
      && end.Last(c) - t.Last(c) == Moved(t, samples, c)
    decreases |samples|
  {
    if samples != [] {
      var most, last := samples[..|samples| - 1], samples[|samples| - 1];
      LifetimeEnds(t, most, c);
      if t.id != 0 {
        UpdatedEnds(RunTracker(t, most).0, last, c);
      } else {
        DomainZero(RunTracker(t, most).0, last, c);
      }
    }
  }

  lemma UpdatedEnds(t: TrackerState, s: Sample, c: Counter)
    requires t.id != 0
    ensures var end := Updated(t, s).0;
      && end.id == t.id && end.uuid == t.uuid
      && end.Last(c) == end.Current(c) == (if Fetched(s, c) then FetchedValue(s, c).value else t.Current(c))
      && end.info == end.tmpInfo == if s.info.Some? then s.info.value else t.tmpInfo
  {
    SampleReaches(t, s, c);
    FailedSample(t, s, c);
  }

  /** Every update of the lifetime moves the counter by a signed 64-bit amount. */
  predicate AllFit(t: TrackerState, samples: seq<Sample>, c: Counter) {
    samples != [] ==>
      var most := samples[..|samples| - 1];
      AllFit(t, most, c) && Fits(RunTracker(t, most).0, samples[|samples| - 1], c)
  }

  lemma {:induction false} DeltasWrap(exact: bool, t: TrackerState, samples: seq<Sample>, c: Counter)
    returns (wraps: int)
    requires exact ==> AllFit(t, samples, c)
    ensures Total(RunTracker(t, samples).1, c) == RunTracker(t, samples).0.Last(c) - t.Last(c) + TWO_64 * wraps
    ensures exact ==> wraps == 0
    decreases |samples|
  {
    wraps := 0;
    if samples != [] {
      var most, last := samples[..|samples| - 1], samples[|samples| - 1];
      var (t1, outs) := RunTracker(t, most);
      var before := DeltasWrap(exact, t, most, c);
      wraps := UpdateDelta(t1, last, c);
      wraps := before + wraps;
      TotalMore(outs, Updated(t1, last).1, c);
    }
  }

  /** Whatever samples failed, the deltas of a lifetime add up to the counter's movement since construction,
      modulo 2^64 for any values and exactly when every update fits. */
  lemma DeltasTelescope(exact: bool, t: TrackerState, samples: seq<Sample>, c: Counter)
    requires exact ==> AllFit(t, samples, c)
    ensures Agree(exact, Total(RunTracker(t, samples).1, c), Moved(t, samples, c))
    ensures t.id == 0 ==> Total(RunTracker(t, samples).1, c) == 0
  {
    var wraps := DeltasWrap(exact, t, samples, c);
    LifetimeEnds(t, samples, c);
    AgreeByWraps(exact, Total(RunTracker(t, samples).1, c), Moved(t, samples, c), wraps);
    if t.id == 0 { ZeroTotal(t, samples, c); }
  }

  lemma {:induction false} ZeroTotal(t: TrackerState, samples: seq<Sample>, c: Counter)
    requires t.id == 0
    ensures Total(RunTracker(t, samples).1, c) == 0
    decreases |samples|
  {
    if samples != [] {
      var most, last := samples[..|samples| - 1], samples[|samples| - 1];
      ZeroTotal(t, most, c);
      LifetimeEnds(t, most, c);
      DomainZero(t, last, c);
      TotalMore(RunTracker(t, most).1, Updated(t, last).1, c);
    }
  }

  /** The deltas so far add up to how far the samples so far moved the counter. */
  predicate AddsUp(t: TrackerState, samples: seq<Sample>, c: Counter) {
    Total(RunTracker(t, samples).1, c) == Moved(t, samples, c)
  }

  /** They did so after every update as well. */
  predicate AlwaysAddsUp(t: TrackerState, samples: seq<Sample>, c: Counter) {
    AddsUp(t, samples, c) && (samples != [] ==> AlwaysAddsUp(t, samples[..|samples| - 1], c))
  }

  lemma AddsUpMore(t: TrackerState, most: seq<Sample>, s: Sample, c: Counter)
    ensures AddsUp(t, most, c) ==> (AddsUp(t, most + [s], c) <==> Fits(RunTracker(t, most).0, s, c))
  {
    var (t1, outs) := RunTracker(t, most);
    var wraps := UpdateDelta(t1, s, c);
    RunTrackerMore(t, most, s);
    LifetimeEnds(t, most, c);
    LifetimeEnds(t, most + [s], c);
    TotalMore(outs, Updated(t1, s).1, c);
  }

  /** The deltas add up exactly after every update of a lifetime if and only if every update fits. */
  lemma {:induction false} ExactThroughout(t: TrackerState, samples: seq<Sample>, c: Counter)
    ensures AllFit(t, samples, c) <==> AlwaysAddsUp(t, samples, c)
    decreases |samples|
  {
    if samples != [] {
      var n := |samples| - 1;
      var most := samples[..n];
      ExactThroughout(t, most, c);
      AddsUpMore(t, most, samples[n], c);
      assert most + [samples[n]] == samples;
    }
  }

  /** While a counter cannot be fetched nothing is reported of it; the next success carries everything since. */
  lemma {:induction false} NextSuccess(t: TrackerState, failed: seq<Sample>, s: Sample, c: Counter)
    requires t.id != 0 && t.Last(c) == t.Current(c)
    requires forall i :: 0 <= i < |failed| ==> !Fetched(failed[i], c)
    ensures var (t1, outs) := RunTracker(t, failed);
      && (forall i :: 0 <= i < |outs| ==> Delta(outs[i], c) == 0)
      && t1.id == t.id && t1.Last(c) == t1.Current(c) == t.Last(c)
      && (Fetched(s, c) ==> Delta(Updated(t1, s).1, c) == Sub64(FetchedValue(s, c).value, t.Last(c)))
    decreases |failed|
  {
    var (t1, outs) := RunTracker(t, failed);
    if failed != [] {
      var most, last := failed[..|failed| - 1], failed[|failed| - 1];
      NextSuccess(t, most, s, c);
      FailedSample(RunTracker(t, most).0, last, c);
    }
    SampleReaches(t1, s, c);
    DeltaSubtracts(t1, s, c);
  }

  // ---------- CPU time ----------

  /** The CPU nanoseconds an entry stands for. */
  function CpuUsed(share: Num, seconds: real): real { Value(share) * seconds * 1000000000.0 }

  lemma QuotientWork(n: nat, d: real)
    ensures var q := Scaled(Quotient(n, d));
      (q.Finite? <==> d != 0.0) && (d != 0.0 ==> CpuUsed(q, d) == n as real)
  {
    var x := n as real;
    if d > 0.0 {
      DivideTwice(x, d);
    } else if d < 0.0 {
      var v := x / -d / 1000000000.0;
      DivideTwice(x, -d);
      assert (0.0 - v) * d == v * -d;
    }
  }

  lemma DivideTwice(x: real, d: real)
    requires d > 0.0
    ensures x / d / 1000000000.0 * d * 1000000000.0 == x
  {
  }

  /** Published utilisation is a number just when the clock has moved; times elapsed nanoseconds it is the
      CPU time used since the previous update, in unsigned 64-bit arithmetic. */
  lemma CpuWork(t: TrackerState, s: Sample)
    requires t.id != 0
    ensures var cpu, seconds := Updated(t, s).1.cpu, ToReal(s.now) - ToReal(t.lastTov);
      var ticks := SubUnsigned((if s.info.Some? then s.info.value else t.tmpInfo).cpuTime, t.info.cpuTime);
      && (cpu.Finite? <==> seconds != 0.0)
      && (seconds != 0.0 ==> CpuUsed(cpu, seconds) == ticks as real)
      && (seconds == 0.0 ==> cpu == if ticks == 0 then NaN else Infinite(false))
    ensures ToReal(s.now) - ToReal(t.lastTov) == Elapsed(t, s)
  {
    TsDiffExact(s.now, t.lastTov);
    QuotientWork(Ticks(t, s), Elapsed(t, s));
  }

  lemma QuotientTimes(n: nat, d: real)
    requires d > 0.0
    ensures Quotient(n, d).Finite? && Value(Quotient(n, d)) * d == n as real
  {
  }

  /** Published memory utilisation is the share of the maximum in use, by the newest figures. */
  lemma MemoryShare(t: TrackerState, s: Sample)
    requires t.id != 0
    ensures var mem, info := Updated(t, s).1.mem, if s.info.Some? then s.info.value else t.tmpInfo;
      && (mem.Finite? <==> info.maxMem != 0)
      && (info.maxMem != 0 ==> Value(mem) * info.maxMem as real == info.memory as real)
      && (info.maxMem == 0 ==> mem == if info.memory == 0 then NaN else Infinite(false))
  {
    var info := Or(s.info, t.tmpInfo);
    if info.maxMem != 0 {
      QuotientTimes(info.memory, info.maxMem as real);
    }
  }

  /** The first update measures deltas, CPU time and elapsed time from what construction found. */
  lemma FirstUpdate(id: int, b: Birth, s: Sample, c: Counter)
    requires id != 0
    ensures var out, last := Updated(Born(id, b), s).1, Pick(c, b.lastBlock, b.lastNet);
      && out.id == id && out.uuid == b.uuid
      && Delta(out, c) == Sub64(if Fetched(s, c) then FetchedValue(s, c).value else Pick(c, b.block, b.net), last)
    ensures var seconds := ToReal(s.now) - ToReal(b.now);
      var info := if s.info.Some? then s.info.value else b.tmpInfo;
      seconds != 0.0 ==>
        CpuUsed(Updated(Born(id, b), s).1.cpu, seconds) == SubUnsigned(info.cpuTime, b.info.cpuTime) as real
  {
    UpdatedEnds(Born(id, b), s, c);
    DeltaSubtracts(Born(id, b), s, c);
    CpuWork(Born(id, b), s);
  }

  /** The clock reading the next update measures from. */
  function Clock(start: Timespec, samples: seq<Sample>): Timespec {
    if samples == [] then start else samples[|samples| - 1].now
  }

  /** The time the newest sample covers. */
  function Interval(start: Timespec, samples: seq<Sample>): real
    requires samples != []
  {
    ToReal(TsDiff(Clock(start, samples), Clock(start, samples[..|samples| - 1])))
  }

  predicate TimeMoves(start: Timespec, samples: seq<Sample>) {
    samples != [] ==> TimeMoves(start, samples[..|samples| - 1]) && Interval(start, samples) != 0.0
  }

  /** The domain's CPU counter never runs backwards. */
  predicate CpuRises(t: TrackerState, samples: seq<Sample>) {
    samples != [] ==>
      var t1, last := RunTracker(t, samples[..|samples| - 1]).0, samples[|samples| - 1];
      CpuRises(t, samples[..|samples| - 1]) && t1.info.cpuTime <= Updated(t1, last).0.info.cpuTime
  }

  /** How far the samples move the CPU counter from what construction found. */
  function CpuMoved(t: TrackerState, samples: seq<Sample>): int {
    if samples == [] then 0 else NewestInfo(samples, t.tmpInfo).cpuTime - t.info.cpuTime
  }

  /** The sum of published utilisation times elapsed nanoseconds. */
  function CpuTime(outs: seq<DomainStats>, start: Timespec, samples: seq<Sample>): real
    requires |outs| == |samples|
  {
    if samples == [] then 0.0
    else
      var n := |samples| - 1;
      CpuTime(outs[..n], start, samples[..n]) + CpuUsed(outs[n].cpu, Interval(start, samples))
  }

  function ElapsedSum(start: Timespec, samples: seq<Sample>): real {
    if samples == [] then 0.0 else ElapsedSum(start, samples[..|samples| - 1]) + Interval(start, samples)
  }

  /** Ticks are the CPU counter's movement, exactly if and only if it did not run backwards. */
  lemma TicksStep(t: TrackerState, s: Sample) returns (wraps: int)
    requires t.id != 0
    ensures Ticks(t, s) == Updated(t, s).0.info.cpuTime - t.info.cpuTime + TWO_64 * wraps
    ensures wraps == 0 <==> t.info.cpuTime <= Updated(t, s).0.info.cpuTime
  {
    wraps := if t.info.cpuTime <= Or(s.info, t.tmpInfo).cpuTime then 0 else 1;
  }

  lemma CpuTimeMore(outs: seq<DomainStats>, out: DomainStats, start: Timespec, samples: seq<Sample>)
    requires samples != [] && |outs| == |samples| - 1
    ensures CpuTime(outs + [out], start, samples)
         == CpuTime(outs, start, samples[..|outs|]) + CpuUsed(out.cpu, Interval(start, samples))
  {
    assert (outs + [out])[..|outs|] == outs;
  }

  lemma {:induction false} CpuAddsUp(exact: bool, t: TrackerState, samples: seq<Sample>)
    returns (ticks: int, wraps: int)
    requires t.id != 0 && TimeMoves(t.lastTov, samples)
    requires exact ==> CpuRises(t, samples)
    ensures RunTracker(t, samples).0.id != 0 && RunTracker(t, samples).0.lastTov == Clock(t.lastTov, samples)
    ensures CpuTime(RunTracker(t, samples).1, t.lastTov, samples) == ticks as real
    ensures ticks == RunTracker(t, samples).0.info.cpuTime - t.info.cpuTime + TWO_64 * wraps
    ensures exact ==> wraps == 0
    decreases |samples|
  {
    ticks, wraps := 0, 0;
    if samples != [] {
      var most, last := samples[..|samples| - 1], samples[|samples| - 1];
      ticks, wraps := CpuAddsUp(exact, t, most);
      var t1 := RunTracker(t, most).0;
      var more := TicksStep(t1, last);
      CpuTimeMore(RunTracker(t, most).1, Updated(t1, last).1, t.lastTov, samples);
      assert CpuUsed(Updated(t1, last).1.cpu, Interval(t.lastTov, samples)) == Ticks(t1, last) as real by {
        CpuWork(t1, last);
      }
      ticks, wraps := ticks + Ticks(t1, last), wraps + more;
    }
  }

  lemma {:induction false} ElapsedTelescopes(start: Timespec, samples: seq<Sample>)
    ensures ElapsedSum(start, samples) == ToReal(Clock(start, samples)) - ToReal(start)
  {
    if samples != [] {
      ElapsedTelescopes(start, samples[..|samples| - 1]);
      TsDiffExact(Clock(start, samples), Clock(start, samples[..|samples| - 1]));
    }
  }

  /** CPU time is conserved: the time-weighted utilisation adds up to the counter's movement, and the
      weights to the time since construction, so their quotient is the overall utilisation. */
  lemma CpuConserved(exact: bool, t: TrackerState, samples: seq<Sample>)
    requires t.id != 0 && TimeMoves(t.lastTov, samples)
    requires exact ==> CpuRises(t, samples)
    ensures var used := CpuTime(RunTracker(t, samples).1, t.lastTov, samples);
      && used == used.Floor as real
      && Agree(exact, used.Floor, CpuMoved(t, samples))
    ensures ElapsedSum(t.lastTov, samples) == ToReal(Clock(t.lastTov, samples)) - ToReal(t.lastTov)
  {
    var ticks, wraps := CpuAddsUp(exact, t, samples);
    LifetimeEnds(t, samples, DiskReadReq);
    AgreeByWraps(exact, ticks, CpuMoved(t, samples), wraps);
    ElapsedTelescopes(t.lastTov, samples);
  }

  // ---------- bounds on what is printed ----------

  predicate Bounded(n: Num, limit: nat) {
    n.Finite? ==> n.mag <= limit as real
  }

  lemma QuotientBound(n: nat, d: real, k: nat)
    requires d * k as real >= 1.0 || -d * k as real >= 1.0
    ensures Bounded(Quotient(n, d), n * k)
  {
    var m, q := n as real, k as real;
    var a := if d > 0.0 then d else -d;
    assert a * q >= 1.0;
    assert m / a <= m * q by {
      assert m / a * a == m;
      assert m * (a * q) >= m * 1.0;
      assert m * q * a >= m;
    }
  }

  /** A 64-bit difference over at least a nanosecond, and memory over at least one unit: at most 2^64. */
  lemma UtilisationBounded(t: TrackerState, s: Sample)
    ensures Bounded(Updated(t, s).1.cpu, TWO_64) && Bounded(Updated(t, s).1.mem, TWO_64)
  {
    if t.id != 0 {
      var d := TsDiff(s.now, t.lastTov);
      ToRealNanos(d);
      if d.Nanos() != 0 {
        QuotientBound(Ticks(t, s), Elapsed(t, s), 1000000000);
      }
      var info := Or(s.info, t.tmpInfo);
      if info.maxMem > 0 {
        QuotientBound(info.memory, info.maxMem as real, 1);
      }
    }
  }
}
