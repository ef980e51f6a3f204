/** Counter deltas are conserved over whole monitor runs, however domains come and go. */
module MonitorConservation {
  import opened MonitorRuns
  import opened MonitorSpec
  import opened OrderedSets
  import opened Sequences
  import opened Stats
  import opened Trackers

  /** What a batch reports for a UUID and counter. */
  function EntrySum(entries: seq<DomainStats>, uuid: string, k: Counter): int {
    if entries == [] then 0
    else (if entries[0].uuid == uuid then Delta(entries[0], k) else 0) + EntrySum(entries[1..], uuid, k)
  }

  /** What a sequence of messages reports for a UUID and counter. */
  function SentSum(sent: seq<Message>, uuid: string, k: Counter): int {
    if sent == [] then 0
    else
      SentSum(sent[..|sent| - 1], uuid, k)
      + (if sent[|sent| - 1].data.Batch? then EntrySum(sent[|sent| - 1].data.agg.domains, uuid, k) else 0)
  }

  /** How far a tracker's samples have moved its counter since construction. */
  function Drift(l: Life, uuid: string, k: Counter): int {
    if l.cur.uuid == uuid then Moved(l.birth, l.samples, k) else 0
  }

  function RetiredDrift(lives: seq<Life>, uuid: string, k: Counter): int {
    if lives == [] then 0 else Drift(lives[0], uuid, k) + RetiredDrift(lives[1..], uuid, k)
  }

  ghost function LiveDrift(trackers: map<int, Life>, ids: set<int>, uuid: string, k: Counter): int
    requires ids <= trackers.Keys
    decreases ids
  {
    if ids == {} then 0
    else Drift(trackers[Min(ids)], uuid, k) + LiveDrift(trackers, ids - {Min(ids)}, uuid, k)
  }

  /** The movement over all lifetimes, finished and current, of domains with this UUID. */
  ghost function TotalDrift(s: MonState, uuid: string, k: Counter): int {
    RetiredDrift(s.retired, uuid, k) + LiveDrift(s.trackers, s.trackers.Keys, uuid, k)
  }

  // ---------- a tracker's state is what its samples make of it ----------

  ghost predicate Traced(l: Life) {
    l.cur == RunTracker(l.birth, l.samples).0
  }

  ghost predicate AllTraced(trackers: map<int, Life>) {
    forall id | id in trackers :: Traced(trackers[id])
  }

  lemma TracedAdvance(l: Life, s: Sample)
    requires Traced(l)
    ensures Traced(Advance(l, s))
  {
    RunTrackerMore(l.birth, l.samples, s);
  }

  lemma DriftIsLast(l: Life, uuid: string, k: Counter)
    requires Traced(l)
    ensures Drift(l, uuid, k) == if l.cur.uuid == uuid then l.cur.Last(k) - l.birth.Last(k) else 0
  {
    LifetimeEnds(l.birth, l.samples, k);
  }

  lemma CycleTraced(s: MonState, c: Cycle)
    requires Coupled(s) && AllTraced(s.trackers)
    ensures AllTraced(Polled(s, c)) && AllTraced(Advanced(Polled(s, c), Polled(s, c).Keys, c))
  {
    var p := Polled(s, c);
    forall id | id in p ensures Traced(Advance(p[id], SampleOf(c, id))) {
      TracedAdvance(p[id], SampleOf(c, id));
    }
  }

  lemma {:induction false} StoryTraced(host: string, cycles: seq<Cycle>)
    ensures AllTraced(Story(host, cycles).trackers)
    ensures forall l | l in Story(host, cycles).retired :: Traced(l)
    decreases |cycles|
  {
    if cycles != [] {
      var s, c := Story(host, Most(cycles)), Last(cycles);
      StoryTraced(host, Most(cycles));
      CycleTraced(s, c);
      if !s.halted {
        EndedTraced(s, c);
      }
    }
  }

  lemma EndedTraced(s: MonState, c: Cycle)
    requires Coupled(s) && !s.halted && AllTraced(s.trackers)
    ensures forall l | l in Ended(s, c) :: Traced(l)
  {
    var ended := Ended(s, c);
    assert forall i :: 0 <= i < |ended| ==> Traced(ended[i]);
  }

  /** In every tracker of a run, freed or not, the reference and current counters are the newest successfully
      sampled value; before any sample, and for domain 0, nothing has moved since construction. */
  lemma DriftIsCurrent(host: string, cycles: seq<Cycle>, l: Life, k: Counter)
    requires l in Run(host, cycles).retired || l in Run(host, cycles).trackers.Values
    ensures l.cur.id == 0 || l.samples == [] ==> l.cur == l.birth && Drift(l, l.cur.uuid, k) == 0
    ensures l.cur.id != 0 && l.samples != [] ==>
      && l.cur.Last(k) == l.cur.Current(k) == Newest(l.samples, k, l.birth.Current(k))
      && Drift(l, l.cur.uuid, k) == l.cur.Current(k) - l.birth.Last(k)
  {
    RunIsStory(host, cycles);
    StoryTraced(host, cycles);
    LifetimeEnds(l.birth, l.samples, k);
  }

  // ---------- sums ----------

  lemma {:induction false} SentSumConcat(a: seq<Message>, b: seq<Message>, uuid: string, k: Counter)
    ensures SentSum(a + b, uuid, k) == SentSum(a, uuid, k) + SentSum(b, uuid, k)
    decreases |b|
  {
    if b == [] {
      assert a + b == a;
    } else {
      SentSumConcat(a, b[..|b| - 1], uuid, k);
      MostConcat(a, b);
    }
  }

  lemma {:induction false} EntrySumMore(most: seq<DomainStats>, last: DomainStats, uuid: string, k: Counter)
    ensures EntrySum(most + [last], uuid, k) == EntrySum(most, uuid, k)
      + if last.uuid == uuid then Delta(last, k) else 0
  {
    if most == [] {
      assert most + [last] == [last] && [last][1..] == [];
    } else {
      EntrySumMore(most[1..], last, uuid, k);
      TailConcat(most, [last]);
    }
  }

  lemma {:induction false} NoticesReportNothing(host: string, trackers: map<int, Life>, ids: seq<int>, uuid: string,
      k: Counter)
    requires forall i :: 0 <= i < |ids| ==> ids[i] in trackers
    ensures SentSum(Terms(host, trackers, ids), uuid, k) == 0
    decreases |ids|
  {
    if ids != [] {
      var t, n := Terms(host, trackers, ids), |ids| - 1;
      NoticesReportNothing(host, trackers, ids[..n], uuid, k);
      assert t[..|t| - 1] == Terms(host, trackers, ids[..n]);
    }
  }

  lemma {:induction false} RetiredConcat(a: seq<Life>, b: seq<Life>, uuid: string, k: Counter)
    ensures RetiredDrift(a + b, uuid, k) == RetiredDrift(a, uuid, k) + RetiredDrift(b, uuid, k)
  {
    if a == [] {
      assert a + b == b;
    } else {
      RetiredConcat(a[1..], b, uuid, k);
      TailConcat(a, b);
    }
  }

  /** Freeing trackers moves their drift from the live to the retired account. */
  lemma {:induction false} EndedDrift(trackers: map<int, Life>, ids: set<int>, uuid: string, k: Counter)
    requires ids <= trackers.Keys
    ensures RetiredDrift(Lives(trackers, Ascending(ids)), uuid, k) == LiveDrift(trackers, ids, uuid, k)
    decreases ids
  {
    if ids != {} {
      var rest := ids - {Min(ids)};
      EndedDrift(trackers, rest, uuid, k);
      assert Lives(trackers, Ascending(ids))[1..] == Lives(trackers, Ascending(rest));
    }
  }

  lemma {:induction false} LiveDriftUnion(trackers: map<int, Life>, a: set<int>, b: set<int>, uuid: string, k: Counter)
    requires a <= trackers.Keys && b <= trackers.Keys && a !! b
    ensures LiveDrift(trackers, a + b, uuid, k) == LiveDrift(trackers, a, uuid, k) + LiveDrift(trackers, b, uuid, k)
    decreases a + b
  {
    var u := a + b;
    if u != {} {
      var m := Min(u);
      if m in a {
        MinOfSubset(u, a);
        assert u - {m} == (a - {m}) + b;
        LiveDriftUnion(trackers, a - {m}, b, uuid, k);
      } else {
        MinOfSubset(u, b);
        assert u - {m} == a + (b - {m});
        LiveDriftUnion(trackers, a, b - {m}, uuid, k);
      }
    }
  }

  lemma {:induction false} LiveDriftSame(m: map<int, Life>, m': map<int, Life>, ids: set<int>, uuid: string, k: Counter)
    requires ids <= m.Keys && ids <= m'.Keys
    requires forall id | id in ids :: m[id] == m'[id]
    ensures LiveDrift(m, ids, uuid, k) == LiveDrift(m', ids, uuid, k)
    decreases ids
  {
    if ids != {} {
      LiveDriftSame(m, m', ids - {Min(ids)}, uuid, k);
    }
  }

  lemma {:induction false} NewbornDrift(m: map<int, Life>, ids: set<int>, uuid: string, k: Counter)
    requires ids <= m.Keys && forall id | id in ids :: m[id].samples == []
    ensures LiveDrift(m, ids, uuid, k) == 0
    decreases ids
  {
    if ids != {} {
      NewbornDrift(m, ids - {Min(ids)}, uuid, k);
    }
  }

  // ---------- one cycle ----------

  lemma PolledParts(s: MonState, c: Cycle) returns (stay: set<int>, born: set<int>)
    requires Coupled(s) && !s.halted
    ensures Gone(s, c) !! stay && Gone(s, c) + stay == s.trackers.Keys
    ensures stay !! born && stay + born == Polled(s, c).Keys
    ensures forall id | id in stay :: Polled(s, c)[id] == s.trackers[id]
    ensures forall id | id in born :: Polled(s, c)[id].samples == []
  {
    stay := s.trackers.Keys - Gone(s, c);
    born := set id | id in Found(s, c);
    assert forall id | id in born :: id in Come(s, c);
    assert stay + born == Polled(s, c).Keys;
  }

  /** Dropping and adding trackers changes no account: newborn trackers start at zero. */
  lemma PolledDrift(s: MonState, c: Cycle, uuid: string, k: Counter)
    requires Coupled(s) && !s.halted
    ensures LiveDrift(s.trackers, s.trackers.Keys, uuid, k)
         == LiveDrift(s.trackers, Gone(s, c), uuid, k) + LiveDrift(Polled(s, c), Polled(s, c).Keys, uuid, k)
  {
    var stay, born := PolledParts(s, c);
    LiveDriftUnion(s.trackers, Gone(s, c), stay, uuid, k);
    LiveDriftUnion(Polled(s, c), stay, born, uuid, k);
    LiveDriftSame(s.trackers, Polled(s, c), stay, uuid, k);
    NewbornDrift(Polled(s, c), born, uuid, k);
  }

  /** Every update of a tracker with the UUID moves the counter by a signed 64-bit amount. */
  ghost predicate TrackersFit(m: map<int, Life>, c: Cycle, uuid: string, k: Counter) {
    forall id | id in m && m[id].cur.uuid == uuid :: Fits(m[id].cur, SampleOf(c, id), k)
  }

  ghost predicate CycleFits(s: MonState, c: Cycle, uuid: string, k: Counter) {
    !s.halted && !c.listing.CountFailed? && AllFound(s, c) ==> TrackersFit(Polled(s, c), c, uuid, k)
  }

  /** Throughout a run the counter's movements in updates of trackers with the UUID are signed 64-bit
      numbers, which by UpdateDelta is when each delta is exactly the movement. */
  ghost predicate RunFits(host: string, cycles: seq<Cycle>, uuid: string, k: Counter)
    decreases |cycles|
  {
    cycles != [] ==>
      RunFits(host, Most(cycles), uuid, k) && CycleFits(Story(host, Most(cycles)), Last(cycles), uuid, k)
  }

  /** An entry reports how far its tracker moved, up to wraps of 2^64; wraps counts them. */
  lemma OneDrift(exact: bool, l: Life, s: Sample, uuid: string, k: Counter) returns (wraps: int)
    requires Traced(l) && (exact && l.cur.uuid == uuid ==> Fits(l.cur, s, k))
    ensures (if Updated(l.cur, s).1.uuid == uuid then Delta(Updated(l.cur, s).1, k) else 0)
         == Drift(Advance(l, s), uuid, k) - Drift(l, uuid, k) + TWO_64 * wraps
    ensures exact ==> wraps == 0
  {
    wraps := UpdateDelta(l.cur, s, k);
    TracedAdvance(l, s);
    DriftIsLast(l, uuid, k);
    DriftIsLast(Advance(l, s), uuid, k);
    if l.cur.uuid != uuid { wraps := 0; }
  }

  lemma EntriesCons(m: map<int, Life>, id: int, rest: seq<int>, c: Cycle, uuid: string, k: Counter)
    requires id in m && forall i :: 0 <= i < |rest| ==> rest[i] in m
    ensures var d := Updated(m[id].cur, SampleOf(c, id)).1;
      EntrySum(Entries(m, [id] + rest, c), uuid, k)
        == (if d.uuid == uuid then Delta(d, k) else 0) + EntrySum(Entries(m, rest, c), uuid, k)
  {
    assert Entries(m, [id] + rest, c)[1..] == Entries(m, rest, c);
  }

  /** What a batch reports is how far the trackers it updated have moved. */
  lemma {:induction false} AdvancedDrift(exact: bool, m: map<int, Life>, all: set<int>, ids: set<int>, c: Cycle,
      uuid: string, k: Counter)
    returns (wraps: int)
    requires ids <= all <= m.Keys && AllTraced(m)
    requires exact ==> TrackersFit(m, c, uuid, k)
    ensures EntrySum(Entries(m, Ascending(ids), c), uuid, k)
         == LiveDrift(Advanced(m, all, c), ids, uuid, k) - LiveDrift(m, ids, uuid, k) + TWO_64 * wraps
    ensures exact ==> wraps == 0
    decreases ids
  {
    wraps := 0;
    if ids != {} {
      var id, rest := Min(ids), ids - {Min(ids)};
      var others := AdvancedDrift(exact, m, all, rest, c, uuid, k);
      EntriesCons(m, id, Ascending(rest), c, uuid, k);
      var own := OneDrift(exact, m[id], SampleOf(c, id), uuid, k);
      wraps := others + own;
    }
  }

  lemma CycleSends(s: MonState, c: Cycle, uuid: string, k: Counter)
    requires Coupled(s) && !s.halted && !c.listing.CountFailed?
    ensures SentSum(CycleResult(s, c).sent, uuid, k)
         == SentSum(s.sent, uuid, k) + if AllFound(s, c) then EntrySum(Reported(s, c), uuid, k) else 0
  {
    NoticesReportNothing(s.host, s.trackers, Ascending(Gone(s, c)), uuid, k);
    SentSumConcat(s.sent, Notified(s, c), uuid, k);
    BatchSum(s.sent + Notified(s, c), BatchMessage(s.host, c.clock, Reported(s, c)), uuid, k);
  }

  lemma CycleDrifts(s: MonState, c: Cycle, uuid: string, k: Counter)
    requires Coupled(s) && !s.halted && !c.listing.CountFailed?
    ensures var s', p := CycleResult(s, c), Polled(s, c);
      TotalDrift(s', uuid, k) == TotalDrift(s, uuid, k)
        + LiveDrift(s'.trackers, s'.trackers.Keys, uuid, k) - LiveDrift(p, p.Keys, uuid, k)
  {
    PolledDrift(s, c, uuid, k);
    EndedDrift(s.trackers, Gone(s, c), uuid, k);
    RetiredConcat(s.retired, Ended(s, c), uuid, k);
  }

  lemma CycleConserves(exact: bool, s: MonState, c: Cycle, uuid: string, k: Counter) returns (wraps: int)
    requires Coupled(s) && !s.halted && !c.listing.CountFailed?
    requires AllTraced(s.trackers) && (exact ==> CycleFits(s, c, uuid, k))
    ensures SentSum(CycleResult(s, c).sent, uuid, k) - SentSum(s.sent, uuid, k)
         == TotalDrift(CycleResult(s, c), uuid, k) - TotalDrift(s, uuid, k) + TWO_64 * wraps
    ensures exact ==> wraps == 0
  {
    CycleSends(s, c, uuid, k);
    CycleDrifts(s, c, uuid, k);
    wraps := 0;
    if AllFound(s, c) {
      var p := Polled(s, c);
      CycleTraced(s, c);
      wraps := AdvancedDrift(exact, p, p.Keys, p.Keys, c, uuid, k);
      assert CycleResult(s, c).trackers.Keys == p.Keys;
    }
  }

  lemma BatchSum(sent: seq<Message>, m: Message, uuid: string, k: Counter)
    requires m.data.Batch?
    ensures SentSum(sent + [m], uuid, k) == SentSum(sent, uuid, k) + EntrySum(m.data.agg.domains, uuid, k)
  {
    assert (sent + [m])[..|sent|] == sent;
  }

  lemma {:induction false} StoryConserves(exact: bool, host: string, cycles: seq<Cycle>, uuid: string, k: Counter)
    returns (wraps: int)
    requires exact ==> RunFits(host, cycles, uuid, k)
    ensures SentSum(Story(host, cycles).sent, uuid, k) == TotalDrift(Story(host, cycles), uuid, k) + TWO_64 * wraps
    ensures exact ==> wraps == 0
    decreases |cycles|
  {
    wraps := 0;
    if cycles != [] {
      var s, c := Story(host, Most(cycles)), Last(cycles);
      wraps := StoryConserves(exact, host, Most(cycles), uuid, k);
      if !s.halted && !c.listing.CountFailed? {
        StoryTraced(host, Most(cycles));
        var more := CycleConserves(exact, s, c, uuid, k);
        wraps := wraps + more;
      }
    }
  }

  /** Over every run, the deltas sent for a UUID add up to the movement of its counters over all its
      lifetimes, whatever samples failed and however often the domain came and went. The equality is
      exact when this counter's movements fit, and holds modulo 2^64 for any values whatever. */
  lemma DeltasConserved(exact: bool, host: string, cycles: seq<Cycle>, uuid: string, k: Counter)
    requires exact ==> RunFits(host, cycles, uuid, k)
    ensures Agree(exact, SentSum(Run(host, cycles).sent, uuid, k), TotalDrift(Run(host, cycles), uuid, k))
  {
    RunIsStory(host, cycles);
    var wraps := StoryConserves(exact, host, cycles, uuid, k);
    AgreeByWraps(exact, SentSum(Run(host, cycles).sent, uuid, k), TotalDrift(Run(host, cycles), uuid, k), wraps);
  }

  // ---------- counters that never read negative ----------

  ghost predicate Plain(trackers: map<int, Life>, k: Counter) {
    forall id | id in trackers :: trackers[id].cur.NonNegative(k)
  }

  /** No listed domain's counter reads negative, at construction or when sampled. */
  ghost predicate PlainCycle(c: Cycle, k: Counter) {
    && (forall id | id in c.births && id in Snapshot(c) :: Born(id, c.births[id]).NonNegative(k))
    && (forall id | id in c.samples && id in Snapshot(c) :: PlainSample(c.samples[id], k))
  }

  lemma PolledPlain(s: MonState, c: Cycle, k: Counter)
    requires Coupled(s) && Plain(s.trackers, k) && PlainCycle(c, k)
    ensures Plain(Polled(s, c), k)
  {
    assert forall id | id in Found(s, c) :: id in Come(s, c);
  }

  lemma AdvancedPlain(m: map<int, Life>, c: Cycle, uuid: string, k: Counter)
    requires Plain(m, k) && PlainCycle(c, k) && m.Keys == Snapshot(c)
    ensures Plain(Advanced(m, m.Keys, c), k) && TrackersFit(m, c, uuid, k)
  {
    forall id | id in m ensures Updated(m[id].cur, SampleOf(c, id)).0.NonNegative(k)
      && Fits(m[id].cur, SampleOf(c, id), k) {
      StaysNonNegative(m[id].cur, SampleOf(c, id), k);
    }
  }

  /** A counter that never reads negative fits throughout, whatever the other counters do. */
  lemma {:induction false} PlainFits(host: string, cycles: seq<Cycle>, uuid: string, k: Counter)
    requires forall i :: 0 <= i < |cycles| ==> PlainCycle(cycles[i], k)
    ensures RunFits(host, cycles, uuid, k)
    ensures !Story(host, cycles).halted ==> Plain(Story(host, cycles).trackers, k)
    decreases |cycles|
  {
    if cycles != [] {
      var s, c := Story(host, Most(cycles)), Last(cycles);
      PlainFits(host, Most(cycles), uuid, k);
      if !s.halted && !c.listing.CountFailed? && AllFound(s, c) {
        PolledKeys(s, c);
        PolledPlain(s, c, k);
        AdvancedPlain(Polled(s, c), c, uuid, k);
      }
    }
  }
}
