/** Each tracker's lifetime within a run: the samples it was given and what the batches carried of it. Runs are
    written as Story, which by RunIsStory is Run. */
module MonitorLifetimes {
  import opened MonitorConservation
  import opened MonitorEvents
  import opened MonitorReports
  import opened MonitorRuns
  import opened MonitorSpec
  import opened OrderedSets
  import opened Sequences
  import opened Stats
  import opened Text
  import opened Timespecs
  import opened Trackers

  // ---------- what messages hold of one domain ----------

  /** What entries are looked up by. */
  datatype Key = ById(id: int) | ByUuid(uuid: string)

  predicate Matches(d: DomainStats, key: Key) {
    match key
    case ById(id) => d.id == id
    case ByUuid(uuid) => d.uuid == uuid
  }

  function EntriesIn(domains: seq<DomainStats>, key: Key): seq<DomainStats> {
    if domains == [] then []
    else
      var last := domains[|domains| - 1];
      EntriesIn(domains[..|domains| - 1], key) + if Matches(last, key) then [last] else []
  }

  /** The entries under a key in the batches among these messages, in order. */
  function EntriesOf(sent: seq<Message>, key: Key): seq<DomainStats> {
    if sent == [] then []
    else
      var last := sent[|sent| - 1];
      EntriesOf(sent[..|sent| - 1], key) + if last.data.Batch? then EntriesIn(last.data.agg.domains, key) else []
  }

  /** What the hypervisor answers for an id in successive cycles; where it has no answer, every call fails. */
  function SamplesOf(id: int, cycles: seq<Cycle>): seq<Sample> {
    seq(|cycles|, i requires 0 <= i < |cycles| =>
      if id in cycles[i].samples then cycles[i].samples[id] else Sample(cycles[i].clock, None, None, None))
  }

  lemma {:induction false} NoticesEntries(host: string, m: map<int, Life>, ids: seq<int>, sent: seq<Message>, key: Key)
    requires forall i :: 0 <= i < |ids| ==> ids[i] in m
    ensures EntriesOf(sent + Terms(host, m, ids), key) == EntriesOf(sent, key)
    decreases |ids|
  {
    var all, n := sent + Terms(host, m, ids), |ids| - 1;
    if ids == [] {
      assert all == sent;
    } else {
      NoticesEntries(host, m, ids[..n], sent, key);
      assert all[..|all| - 1] == sent + Terms(host, m, ids[..n]);
    }
  }

  lemma BatchEntries(sent: seq<Message>, m: Message, key: Key)
    requires m.data.Batch?
    ensures EntriesOf(sent + [m], key) == EntriesOf(sent, key) + EntriesIn(m.data.agg.domains, key)
  {
    assert (sent + [m])[..|sent|] == sent;
  }

  /** The key singles out the tracker of id. */
  ghost predicate Singles(m: map<int, Life>, key: Key, id: int) {
    forall i | i in m :: i == id <==> (match key case ById(x) => m[i].cur.id == x case ByUuid(u) => m[i].cur.uuid == u)
  }

  lemma EntryMatches(m: map<int, Life>, i: int, c: Cycle, key: Key, id: int)
    requires i in m && Singles(m, key, id)
    ensures Matches(Updated(m[i].cur, SampleOf(c, i)).1, key) <==> i == id
  {
  }

  lemma LastOrBefore(ids: seq<int>, id: int)
    requires ids != [] && Increasing(ids)
    ensures var most, last := ids[..|ids| - 1], ids[|ids| - 1];
      (id in ids <==> last == id || id in most) && (last == id ==> id !in most) && Increasing(most)
  {
  }

  /** Ascending ids have one entry each. */
  lemma {:induction false} OneEntry(m: map<int, Life>, ids: seq<int>, c: Cycle, key: Key, id: int)
    requires Increasing(ids) && (forall i :: 0 <= i < |ids| ==> ids[i] in m) && Singles(m, key, id)
    ensures EntriesIn(Entries(m, ids, c), key) == if id in ids then [Updated(m[id].cur, SampleOf(c, id)).1] else []
    decreases |ids|
  {
    if ids != [] {
      var n := |ids| - 1;
      OneEntry(m, ids[..n], c, key, id);
      EntryMatches(m, ids[n], c, key, id);
      assert Entries(m, ids, c)[..n] == Entries(m, ids[..n], c);
      LastOrBefore(ids, id);
    }
  }

  /** A cycle that does not end the run adds one entry for each listed id. */
  lemma CycleEntries(s: MonState, c: Cycle, before: seq<Message>, key: Key, id: int)
    requires Coupled(s) && !s.halted && AllFound(s, c) && id in Snapshot(c) && Singles(Polled(s, c), key, id)
    ensures id in Polled(s, c)
    ensures EntriesOf(before + Notified(s, c) + [BatchMessage(s.host, c.clock, Reported(s, c))], key)
         == EntriesOf(before, key) + [Updated(Polled(s, c)[id].cur, SampleOf(c, id)).1]
  {
    NoticesEntries(s.host, s.trackers, Ascending(Gone(s, c)), before, key);
    BatchEntries(before + Notified(s, c), BatchMessage(s.host, c.clock, Reported(s, c)), key);
    PolledKeys(s, c);
    AscendingOrder(Snapshot(c));
    OneEntry(Polled(s, c), Ascending(Snapshot(c)), c, key, id);
  }

  /** A tracker that is there after polling is newborn or was there before. */
  lemma PolledOrigin(s: MonState, c: Cycle, id: int)
    requires Coupled(s) && !s.halted && id in Polled(s, c)
    ensures id in Snapshot(c)
    ensures id !in s.active ==>
      id in c.births && Polled(s, c)[id] == Newborn(id, c.births[id])
    ensures id in s.active ==> id in s.trackers && Polled(s, c)[id] == s.trackers[id]
  {
    var f := Found(s, c);
    assert forall i :: 0 <= i < |f| ==> f[i] in Come(s, c);
  }

  // ---------- lifetimes ----------

  lemma {:induction false} SentGrowing(host: string, cycles: seq<Cycle>, b: nat)
    requires b <= |cycles|
    ensures Story(host, cycles[..b]).sent <= Story(host, cycles).sent
    decreases |cycles|
  {
    if b == |cycles| {
      assert cycles[..b] == cycles;
    } else {
      SentGrowing(host, Most(cycles), b);
      assert Most(cycles)[..b] == cycles[..b];
      SentGrows(Story(host, Most(cycles)), Last(cycles));
    }
  }

  /** The messages of the cycles from b on. */
  ghost function SentSince(host: string, cycles: seq<Cycle>, b: nat): seq<Message>
    requires b <= |cycles|
  {
    SentGrowing(host, cycles, b);
    Story(host, cycles).sent[|Story(host, cycles[..b]).sent|..]
  }

  /** The id was not listed before cycle b and has been since. */
  ghost predicate ListedSince(cycles: seq<Cycle>, b: nat, id: int) {
    && b <= |cycles| && (b > 0 ==> !Lists(cycles[b - 1], id))
    && forall j :: b <= j < |cycles| ==> Lists(cycles[j], id)
  }

  /** The tracker's state is what the samples make of its state at construction, and the entries sent of it
      are that computation's outputs, one per sample. */
  ghost predicate Computed(l: Life, sent: seq<Message>, samples: seq<Sample>) {
    (l.cur, EntriesOf(sent, ById(l.cur.id))) == RunTracker(l.birth, samples) && l.samples == samples
  }

  /** A tracker's history from its construction in cycle b on. */
  ghost predicate Lived(host: string, cycles: seq<Cycle>, b: nat, birth: Birth, l: Life) {
    && ListedSince(cycles, b, l.cur.id) && !Story(host, cycles).halted
    && l.birth == Born(l.cur.id, birth)
    && Computed(l, SentSince(host, cycles, b), SamplesOf(l.cur.id, cycles[b..]))
  }

  lemma NewbornLived(host: string, cycles: seq<Cycle>, id: int, birth: Birth)
    requires !Story(host, cycles).halted && id !in LastSnapshot(cycles)
    ensures Lived(host, cycles, |cycles|, birth, Newborn(id, birth))
  {
    assert cycles[..|cycles|] == cycles;
    if cycles != [] { SnapshotLists(Last(cycles), id); }
    assert SentSince(host, cycles, |cycles|) == [];
    assert SamplesOf(id, cycles[|cycles|..]) == [];
  }

  lemma DropConcat(sent: seq<Message>, n: nat, notices: seq<Message>, batch: Message)
    requires n <= |sent|
    ensures (sent + notices + [batch])[n..] == sent[n..] + notices + [batch]
  {
  }

  /** A cycle that does not end the run sends its notices and its batch. */
  lemma SentMore(host: string, cycles: seq<Cycle>, b: nat)
    requires b < |cycles| && !Story(host, cycles).halted
    ensures var s, c := Story(host, Most(cycles)), Last(cycles);
      && !s.halted && AllFound(s, c)
      && SentSince(host, cycles, b)
         == SentSince(host, Most(cycles), b) + Notified(s, c) + [BatchMessage(host, c.clock, Reported(s, c))]
  {
    var s, c := Story(host, Most(cycles)), Last(cycles);
    assert Most(cycles)[..b] == cycles[..b];
    SentGrowing(host, Most(cycles), b);
    DropConcat(s.sent, |Story(host, cycles[..b]).sent|, Notified(s, c), BatchMessage(host, c.clock, Reported(s, c)));
  }

  lemma SamplesMore(id: int, cycles: seq<Cycle>, b: nat)
    requires b < |cycles|
    ensures SamplesOf(id, cycles[b..]) == SamplesOf(id, Most(cycles)[b..]) + [SampleOf(Last(cycles), id)]
  {
  }

  lemma ListedMore(cycles: seq<Cycle>, b: nat, id: int)
    requires b < |cycles| && ListedSince(Most(cycles), b, id) && Lists(Last(cycles), id)
    ensures ListedSince(cycles, b, id)
  {
    assert forall j :: b <= j < |cycles| - 1 ==> Most(cycles)[j] == cycles[j];
  }

  lemma ComputedMore(s: MonState, c: Cycle, l: Life, before: seq<Message>, samples: seq<Sample>)
    requires Coupled(s) && !s.halted && AllFound(s, c) && l.cur.id in Snapshot(c)
    requires l.cur.id in Polled(s, c) && Polled(s, c)[l.cur.id] == l && Computed(l, before, samples)
    ensures Computed(Advance(l, SampleOf(c, l.cur.id)),
                     before + Notified(s, c) + [BatchMessage(s.host, c.clock, Reported(s, c))],
                     samples + [SampleOf(c, l.cur.id)])
  {
    PolledCoupled(s, c);
    CycleEntries(s, c, before, ById(l.cur.id), l.cur.id);
    RunTrackerMore(l.birth, samples, SampleOf(c, l.cur.id));
  }

  /** One more cycle of a life. */
  lemma LivedMore(host: string, cycles: seq<Cycle>, b: nat, birth: Birth, l: Life)
    requires b < |cycles| && Lived(host, Most(cycles), b, birth, l)
    requires !Story(host, cycles).halted && l.cur.id in Snapshot(Last(cycles))
    requires l.cur.id in Polled(Story(host, Most(cycles)), Last(cycles))
    requires Polled(Story(host, Most(cycles)), Last(cycles))[l.cur.id] == l
    ensures Lived(host, cycles, b, birth, Advance(l, SampleOf(Last(cycles), l.cur.id)))
  {
    var s, c, id := Story(host, Most(cycles)), Last(cycles), l.cur.id;
    SentMore(host, cycles, b);
    ComputedMore(s, c, l, SentSince(host, Most(cycles), b), SamplesOf(id, Most(cycles)[b..]));
    SamplesMore(id, cycles, b);
    ListedMore(cycles, b, id);
  }

  /** Among these cycles, of which past is the beginning, a tracker was constructed in cycle b and lived to
      the end of past. */
  ghost predicate Lifetime(host: string, cycles: seq<Cycle>, b: nat, past: seq<Cycle>, l: Life) {
    && past <= cycles && b <= |past| && b < |cycles|
    && Lists(cycles[b], l.cur.id) && l.cur.id in cycles[b].births
    && Lived(host, past, b, cycles[b].births[l.cur.id], l)
  }

  /** The life ended in the cycle after past, which no longer listed its domain. */
  ghost predicate EndsAfter(host: string, cycles: seq<Cycle>, b: nat, past: seq<Cycle>, l: Life) {
    Lifetime(host, cycles, b, past, l) && |past| < |cycles| && !Lists(cycles[|past|], l.cur.id)
  }

  ghost predicate HasEnded(host: string, cycles: seq<Cycle>, l: Life) {
    exists b: nat, past: seq<Cycle> :: EndsAfter(host, cycles, b, past, l)
  }

  /** The life goes on to the end of past. */
  ghost predicate LivesOn(host: string, cycles: seq<Cycle>, past: seq<Cycle>, l: Life) {
    exists b: nat :: Lifetime(host, cycles, b, past, l)
  }

  ghost predicate HasLifetime(host: string, cycles: seq<Cycle>, l: Life) {
    exists past: seq<Cycle> :: LivesOn(host, cycles, past, l)
  }

  lemma LifetimeKept(host: string, cycles: seq<Cycle>, b: nat, past: seq<Cycle>, l: Life)
    requires cycles != [] && Lifetime(host, Most(cycles), b, past, l)
    ensures Lifetime(host, cycles, b, past, l)
  {
  }

  lemma LivesOnKept(host: string, cycles: seq<Cycle>, past: seq<Cycle>, l: Life)
    requires cycles != [] && LivesOn(host, Most(cycles), past, l)
    ensures LivesOn(host, cycles, past, l)
  {
    var b: nat :| Lifetime(host, Most(cycles), b, past, l);
    LifetimeKept(host, cycles, b, past, l);
  }

  lemma NewbornLife(host: string, past: seq<Cycle>, c: Cycle, l: Life)
    requires l.cur.id in c.births && Lists(c, l.cur.id)
    requires Lived(host, past, |past|, c.births[l.cur.id], l)
    ensures LivesOn(host, past + [c], past, l)
  {
    assert (past + [c])[|past|] == c;
    assert Lifetime(host, past + [c], |past|, past, l);
  }

  lemma PolledLife(host: string, cycles: seq<Cycle>, id: int)
    requires cycles != [] && !Story(host, Most(cycles)).halted
    requires forall i | i in Story(host, Most(cycles)).trackers ::
      LivesOn(host, Most(cycles), Most(cycles), Story(host, Most(cycles)).trackers[i])
    requires id in Polled(Story(host, Most(cycles)), Last(cycles))
    ensures LivesOn(host, cycles, Most(cycles), Polled(Story(host, Most(cycles)), Last(cycles))[id])
  {
    var s, c := Story(host, Most(cycles)), Last(cycles);
    PolledOrigin(s, c, id);
    if id !in s.active {
      NewbornLived(host, Most(cycles), id, c.births[id]);
      MostLast(cycles);
      NewbornLife(host, Most(cycles), c, Polled(s, c)[id]);
    } else {
      LivesOnKept(host, cycles, Most(cycles), s.trackers[id]);
    }
  }

  lemma EndedLife(host: string, past: seq<Cycle>, c: Cycle, l: Life)
    requires LivesOn(host, past + [c], past, l) && !Lists(c, l.cur.id)
    ensures HasEnded(host, past + [c], l)
  {
    var b: nat :| Lifetime(host, past + [c], b, past, l);
    assert (past + [c])[|past|] == c;
    assert EndsAfter(host, past + [c], b, past, l);
  }

  lemma AdvancedLife(host: string, cycles: seq<Cycle>, l: Life)
    requires cycles != [] && LivesOn(host, cycles, Most(cycles), l) && !Story(host, cycles).halted
    requires l.cur.id in Snapshot(Last(cycles))
    requires l.cur.id in Polled(Story(host, Most(cycles)), Last(cycles))
    requires Polled(Story(host, Most(cycles)), Last(cycles))[l.cur.id] == l
    ensures LivesOn(host, cycles, cycles, Advance(l, SampleOf(Last(cycles), l.cur.id)))
  {
    var b: nat :| Lifetime(host, cycles, b, Most(cycles), l);
    LivedMore(host, cycles, b, cycles[b].births[l.cur.id], l);
    assert Lifetime(host, cycles, b, cycles, Advance(l, SampleOf(Last(cycles), l.cur.id)));
  }

  lemma {:induction false} StoryLives(host: string, cycles: seq<Cycle>)
    requires !Story(host, cycles).halted
    ensures forall id | id in Story(host, cycles).trackers ::
      LivesOn(host, cycles, cycles, Story(host, cycles).trackers[id])
    decreases |cycles|
  {
    if cycles != [] {
      var s, c := Story(host, Most(cycles)), Last(cycles);
      StoryLives(host, Most(cycles));
      PolledKeys(s, c);
      PolledCoupled(s, c);
      forall id | id in Story(host, cycles).trackers
        ensures LivesOn(host, cycles, cycles, Story(host, cycles).trackers[id])
      {
        PolledLife(host, cycles, id);
        AdvancedLife(host, cycles, Polled(s, c)[id]);
      }
    }
  }

  lemma EndedKept(host: string, cycles: seq<Cycle>, l: Life)
    requires cycles != [] && HasEnded(host, Most(cycles), l)
    ensures HasEnded(host, cycles, l)
  {
    var b: nat, past: seq<Cycle> :| EndsAfter(host, Most(cycles), b, past, l);
    LifetimeKept(host, cycles, b, past, l);
    assert EndsAfter(host, cycles, b, past, l);
  }

  lemma MostLast(cycles: seq<Cycle>)
    requires cycles != []
    ensures Most(cycles) + [Last(cycles)] == cycles
  {
  }

  lemma EndedId(s: MonState, c: Cycle, l: Life) returns (id: int)
    requires Coupled(s) && !s.halted && l in Ended(s, c)
    ensures id in Gone(s, c) && id in s.trackers && l == s.trackers[id]
  {
    var ended, gone := Ended(s, c), Ascending(Gone(s, c));
    var i :| 0 <= i < |ended| && ended[i] == l;
    id := gone[i];
  }

  lemma EndedNow(host: string, cycles: seq<Cycle>, l: Life)
    requires cycles != [] && !Story(host, Most(cycles)).halted
    requires l in Ended(Story(host, Most(cycles)), Last(cycles))
    ensures HasEnded(host, cycles, l)
  {
    var s, c := Story(host, Most(cycles)), Last(cycles);
    MostLast(cycles);
    var id := EndedId(s, c, l);
    StoryLives(host, Most(cycles));
    LivesOnKept(host, cycles, Most(cycles), l);
    EndedLife(host, Most(cycles), c, l);
  }

  lemma {:induction false} StoryEnded(host: string, cycles: seq<Cycle>, l: Life)
    requires l in Story(host, cycles).retired
    ensures HasEnded(host, cycles, l)
    decreases |cycles|
  {
    var s, c := Story(host, Most(cycles)), Last(cycles);
    if l in s.retired {
      StoryEnded(host, Most(cycles), l);
      EndedKept(host, cycles, l);
    } else {
      EndedNow(host, cycles, l);
    }
  }

  lemma {:induction false} StoryHasLives(host: string, cycles: seq<Cycle>, id: int)
    requires id in Story(host, cycles).trackers
    ensures HasLifetime(host, cycles, Story(host, cycles).trackers[id])
    decreases |cycles|
  {
    var s, c, l := Story(host, Most(cycles)), Last(cycles), Story(host, cycles).trackers[id];
    if !Story(host, cycles).halted {
      StoryLives(host, cycles);
    } else if s.halted {
      StoryHasLives(host, Most(cycles), id);
      var past: seq<Cycle> :| LivesOn(host, Most(cycles), past, l);
      LivesOnKept(host, cycles, past, l);
    } else {
      StoryLives(host, Most(cycles));
      if c.listing.CountFailed? {
        LivesOnKept(host, cycles, Most(cycles), l);
      } else {
        PolledLife(host, cycles, id);
      }
    }
  }

  /** Every tracker a run has freed lived from a cycle that found its domain new to one that no longer listed
      it; every tracker a running monitor has lives on; and one left by a halted run has a lifetime too. */
  lemma LifetimesComplete(host: string, cycles: seq<Cycle>)
    ensures forall l | l in Run(host, cycles).retired :: HasEnded(host, cycles, l)
    ensures forall id | id in Run(host, cycles).trackers :: HasLifetime(host, cycles, Run(host, cycles).trackers[id])
    ensures !Run(host, cycles).halted ==>
      forall id | id in Run(host, cycles).trackers :: LivesOn(host, cycles, cycles, Run(host, cycles).trackers[id])
  {
    RunIsStory(host, cycles);
    forall l | l in Run(host, cycles).retired ensures HasEnded(host, cycles, l) {
      StoryEnded(host, cycles, l);
    }
    forall id | id in Run(host, cycles).trackers ensures HasLifetime(host, cycles, Run(host, cycles).trackers[id]) {
      StoryHasLives(host, cycles, id);
    }
    if !Story(host, cycles).halted {
      StoryLives(host, cycles);
    }
  }

  // ---------- what a lifetime adds up to ----------

  /** The newest value of an id's counter that these cycles brought, or the initial one if none did. */
  function NewestIn(cycles: seq<Cycle>, id: int, k: Counter, initial: Int64): Int64 {
    if cycles == [] then initial
    else
      var c := cycles[|cycles| - 1];
      if id in c.samples && Fetched(c.samples[id], k) then FetchedValue(c.samples[id], k).value
      else NewestIn(cycles[..|cycles| - 1], id, k, initial)
  }

  lemma {:induction false} NewestOfSamples(id: int, cycles: seq<Cycle>, k: Counter, initial: Int64)
    ensures Newest(SamplesOf(id, cycles), k, initial) == NewestIn(cycles, id, k, initial)
    decreases |cycles|
  {
    if cycles != [] {
      NewestOfSamples(id, cycles[..|cycles| - 1], k, initial);
      assert SamplesOf(id, cycles)[..|cycles| - 1] == SamplesOf(id, cycles[..|cycles| - 1]);
    }
  }

  /** How far what the hypervisor answered during a lifetime moves a counter from what construction found. */
  function Gain(b: Birth, id: int, lived: seq<Cycle>, k: Counter): int {
    if id == 0 || lived == [] then 0
    else NewestIn(lived, id, k, Pick(k, b.block, b.net)) - Pick(k, b.lastBlock, b.lastNet)
  }

  lemma MovedIsGain(b: Birth, id: int, lived: seq<Cycle>, k: Counter)
    ensures Moved(Born(id, b), SamplesOf(id, lived), k) == Gain(b, id, lived, k)
  {
    NewestOfSamples(id, lived, k, Pick(k, b.block, b.net));
  }

  /** Over each lifetime the deltas sent for the tracker, one per cycle, add up to the newest successfully
      sampled value of its counter minus the one construction found: modulo 2^64 for any values, and exactly
      when every update fits. Domain 0 adds up to 0. */
  lemma LifetimeDeltas(exact: bool, host: string, cycles: seq<Cycle>, b: nat, past: seq<Cycle>, l: Life, k: Counter)
    requires Lifetime(host, cycles, b, past, l)
    requires exact ==> AllFit(l.birth, SamplesOf(l.cur.id, past[b..]), k)
    ensures Agree(exact, Total(EntriesOf(SentSince(host, past, b), ById(l.cur.id)), k),
                  Gain(cycles[b].births[l.cur.id], l.cur.id, past[b..], k))
    ensures Drift(l, l.cur.uuid, k) == Gain(cycles[b].births[l.cur.id], l.cur.id, past[b..], k)
    ensures |EntriesOf(SentSince(host, past, b), ById(l.cur.id))| == |past| - b
    ensures l.cur.id == 0 ==> Total(EntriesOf(SentSince(host, past, b), ById(l.cur.id)), k) == 0
  {
    MovedIsGain(cycles[b].births[l.cur.id], l.cur.id, past[b..], k);
    ComputedDeltas(exact, l, SentSince(host, past, b), SamplesOf(l.cur.id, past[b..]), k);
  }

  lemma ComputedDeltas(exact: bool, l: Life, sent: seq<Message>, samples: seq<Sample>, k: Counter)
    requires Computed(l, sent, samples) && (exact ==> AllFit(l.birth, samples, k))
    ensures var outs := EntriesOf(sent, ById(l.cur.id));
      && Agree(exact, Total(outs, k), Moved(l.birth, samples, k)) && |outs| == |samples|
      && Drift(l, l.cur.uuid, k) == Moved(l.birth, samples, k)
      && (l.cur.id == 0 ==> Total(outs, k) == 0)
  {
    DeltasTelescope(exact, l.birth, samples, k);
    LifetimeEnds(l.birth, samples, k);
  }

  /** Utilisation sent, weighted by the time elapsed since the tracker's construction, adds up to what the CPU
      counter's newest value is above the one construction found, and the weights to the time. */
  ghost predicate CpuBalances(exact: bool, found: Birth, outs: seq<DomainStats>, samples: seq<Sample>) {
    && |outs| == |samples|
    && var used := CpuTime(outs, found.now, samples);
       var moved := if samples == [] then 0 else NewestInfo(samples, found.tmpInfo).cpuTime - found.info.cpuTime;
       && used == used.Floor as real && Agree(exact, used.Floor, moved)
       && ElapsedSum(found.now, samples) == ToReal(Clock(found.now, samples)) - ToReal(found.now)
  }

  lemma ComputedCpu(exact: bool, found: Birth, id: int, samples: seq<Sample>)
    requires id != 0 && TimeMoves(found.now, samples) && (exact ==> CpuRises(Born(id, found), samples))
    ensures CpuBalances(exact, found, RunTracker(Born(id, found), samples).1, samples)
  {
    CpuConserved(exact, Born(id, found), samples);
  }

  /** CPU time is conserved over each lifetime. */
  lemma LifetimeCpu(exact: bool, host: string, cycles: seq<Cycle>, b: nat, past: seq<Cycle>, l: Life)
    requires Lifetime(host, cycles, b, past, l) && l.cur.id != 0
    requires TimeMoves(cycles[b].births[l.cur.id].now, SamplesOf(l.cur.id, past[b..]))
    requires exact ==> CpuRises(l.birth, SamplesOf(l.cur.id, past[b..]))
    ensures CpuBalances(exact, cycles[b].births[l.cur.id], EntriesOf(SentSince(host, past, b), ById(l.cur.id)),
                        SamplesOf(l.cur.id, past[b..]))
  {
    ComputedCpu(exact, cycles[b].births[l.cur.id], l.cur.id, SamplesOf(l.cur.id, past[b..]));
  }

  // ---------- lifetimes whose UUID no other tracker shares ----------

  /** Of these trackers that of id alone carries the UUID. */
  ghost predicate SoleCarrier(m: map<int, Life>, id: int, uuid: string) {
    forall i | i in m && i != id :: m[i].cur.uuid != uuid
  }

  /** After no cycle from b on does another tracker carry the UUID. */
  ghost predicate Alone(host: string, past: seq<Cycle>, b: nat, id: int, uuid: string)
    decreases |past|
  {
    b < |past| ==> SoleCarrier(Story(host, past).trackers, id, uuid) && Alone(host, Most(past), b, id, uuid)
  }

  lemma UuidAfter(s: MonState, c: Cycle, id: int)
    requires Coupled(s) && !s.halted && !CycleResult(s, c).halted && id in Snapshot(c)
    ensures var t := CycleResult(s, c).trackers;
      && id in t
      && (id in s.active ==> id in s.trackers && t[id].cur.uuid == s.trackers[id].cur.uuid)
      && (id !in s.active ==> id in c.births && t[id].cur.uuid == c.births[id].uuid)
  {
    PolledKeys(s, c);
    PolledOrigin(s, c, id);
  }

  lemma {:induction false} UuidSince(host: string, past: seq<Cycle>, b: nat, id: int)
    requires b < |past| && ListedSince(past, b, id) && !Story(host, past).halted
    ensures id in Story(host, past).trackers && id in past[b].births
    ensures Story(host, past).trackers[id].cur.uuid == past[b].births[id].uuid
    decreases |past|
  {
    UuidAfter(Story(host, Most(past)), Last(past), id);
    if b < |past| - 1 {
      ListedLess(past, b, id);
      UuidSince(host, Most(past), b, id);
    } else {
      assert past[..b] == Most(past);
    }
  }

  lemma ListedLess(past: seq<Cycle>, b: nat, id: int)
    requires b < |past| && ListedSince(past, b, id)
    ensures ListedSince(Most(past), b, id)
  {
    assert forall j :: b <= j < |past| - 1 ==> Most(past)[j] == past[j];
  }

  lemma SoleBefore(m: map<int, Life>, c: Cycle, id: int, uuid: string)
    requires var t := Advanced(m, m.Keys, c); id in t && t[id].cur.uuid == uuid && SoleCarrier(t, id, uuid)
    ensures Singles(m, ByUuid(uuid), id)
  {
    var t := Advanced(m, m.Keys, c);
    assert forall i | i in m :: i in t && t[i].cur.uuid == m[i].cur.uuid;
  }

  lemma SoleKept(s: MonState, c: Cycle, before: seq<Message>, id: int, uuid: string)
    requires Coupled(s) && !s.halted && AllFound(s, c) && id in Snapshot(c)
    requires var t := Advanced(Polled(s, c), Polled(s, c).Keys, c);
      id in t && t[id].cur.uuid == uuid && SoleCarrier(t, id, uuid)
    requires EntriesOf(before, ByUuid(uuid)) == EntriesOf(before, ById(id))
    ensures var after := before + Notified(s, c) + [BatchMessage(s.host, c.clock, Reported(s, c))];
      EntriesOf(after, ByUuid(uuid)) == EntriesOf(after, ById(id))
  {
    SoleBefore(Polled(s, c), c, id, uuid);
    PolledCoupled(s, c);
    CycleEntries(s, c, before, ByUuid(uuid), id);
    CycleEntries(s, c, before, ById(id), id);
  }

  lemma SoleMore(host: string, past: seq<Cycle>, b: nat, id: int, uuid: string)
    requires b < |past| && !Story(host, past).halted && id in Snapshot(Last(past))
    requires var t := Story(host, past).trackers;
      id in t && t[id].cur.uuid == uuid && SoleCarrier(t, id, uuid)
    requires var before := SentSince(host, Most(past), b);
      EntriesOf(before, ByUuid(uuid)) == EntriesOf(before, ById(id))
    ensures var after := SentSince(host, past, b);
      EntriesOf(after, ByUuid(uuid)) == EntriesOf(after, ById(id))
  {
    SentMore(host, past, b);
    SoleKept(Story(host, Most(past)), Last(past), SentSince(host, Most(past), b), id, uuid);
  }

  /** While no other tracker carries a life's UUID, what is sent for the UUID is what is sent for the life. */
  lemma {:induction false} SoleEntries(host: string, past: seq<Cycle>, b: nat, id: int, uuid: string)
    requires ListedSince(past, b, id) && !Story(host, past).halted && Alone(host, past, b, id, uuid)
    requires b < |past| ==> id in past[b].births && past[b].births[id].uuid == uuid
    ensures EntriesOf(SentSince(host, past, b), ByUuid(uuid)) == EntriesOf(SentSince(host, past, b), ById(id))
    decreases |past|
  {
    if b == |past| {
      assert past[..b] == past;
      assert SentSince(host, past, b) == [];
    } else {
      UuidSince(host, past, b, id);
      ListedLess(past, b, id);
      SoleEntries(host, Most(past), b, id, uuid);
      SoleMore(host, past, b, id, uuid);
    }
  }

  lemma {:induction false} EntrySumTotal(domains: seq<DomainStats>, uuid: string, k: Counter)
    ensures EntrySum(domains, uuid, k) == Total(EntriesIn(domains, ByUuid(uuid)), k)
    decreases |domains|
  {
    if domains != [] {
      var most, last := domains[..|domains| - 1], domains[|domains| - 1];
      EntrySumTotal(most, uuid, k);
      EntrySumMore(most, last, uuid, k);
      assert domains == most + [last];
      var e := EntriesIn(most, ByUuid(uuid));
      TotalMore(e, last, k);
      assert e + [] == e;
    }
  }

  lemma {:induction false} TotalConcat(a: seq<DomainStats>, b: seq<DomainStats>, k: Counter)
    ensures Total(a + b, k) == Total(a, k) + Total(b, k)
    decreases |b|
  {
    if b == [] {
      assert a + b == a;
    } else {
      TotalConcat(a, b[..|b| - 1], k);
      MostConcat(a, b);
    }
  }

  lemma {:induction false} SentSumTotal(sent: seq<Message>, uuid: string, k: Counter)
    ensures SentSum(sent, uuid, k) == Total(EntriesOf(sent, ByUuid(uuid)), k)
    decreases |sent|
  {
    if sent != [] {
      var most, last := sent[..|sent| - 1], sent[|sent| - 1];
      SentSumTotal(most, uuid, k);
      if last.data.Batch? {
        EntrySumTotal(last.data.agg.domains, uuid, k);
        TotalConcat(EntriesOf(most, ByUuid(uuid)), EntriesIn(last.data.agg.domains, ByUuid(uuid)), k);
      } else {
        assert EntriesOf(most, ByUuid(uuid)) + [] == EntriesOf(most, ByUuid(uuid));
      }
    }
  }

  /** So over a lifetime whose UUID is not shared, the entries sent for the UUID are this tracker's outputs, and
      their deltas add up to the movement of its counter. */
  lemma SoleLifetime(exact: bool, host: string, cycles: seq<Cycle>, b: nat, past: seq<Cycle>, l: Life, k: Counter)
    requires Lifetime(host, cycles, b, past, l) && Alone(host, past, b, l.cur.id, l.cur.uuid)
    requires exact ==> AllFit(l.birth, SamplesOf(l.cur.id, past[b..]), k)
    ensures EntriesOf(SentSince(host, past, b), ByUuid(l.cur.uuid))
         == RunTracker(l.birth, SamplesOf(l.cur.id, past[b..])).1
    ensures Agree(exact, SentSum(SentSince(host, past, b), l.cur.uuid, k),
                  Gain(cycles[b].births[l.cur.id], l.cur.id, past[b..], k))
  {
    LifetimeEnds(l.birth, SamplesOf(l.cur.id, past[b..]), k);
    SoleEntries(host, past, b, l.cur.id, l.cur.uuid);
    SentSumTotal(SentSince(host, past, b), l.cur.uuid, k);
    LifetimeDeltas(exact, host, cycles, b, past, l, k);
  }
}
