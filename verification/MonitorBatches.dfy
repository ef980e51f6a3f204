/** What the batches of a run say: one for each completed cycle, with that cycle's clock and domains. */
module MonitorBatches {
  import opened MonitorRuns
  import opened MonitorSpec
  import opened Numerals
  import opened Sequences
  import opened Stats
  import opened Timespecs

  function Batches(sent: seq<Message>): seq<AggregateStats> {
    if sent == [] then []
    else
      var last := sent[|sent| - 1];
      Batches(sent[..|sent| - 1]) + if last.data.Batch? then [last.data.agg] else []
  }

  /** The batch names this host, carries the cycle's clock to the nanosecond, and has one entry for each listed
      domain, in strictly ascending id order. */
  ghost predicate BatchFor(host: string, c: Cycle, agg: AggregateStats) {
    var ids := IdsIn(agg.domains);
    && agg.hostname == host
    && agg.tov.Finite? && Value(agg.tov) * 1000000000.0 == c.clock.Nanos() as real
    && (forall id :: id in ids <==> c.listing.Listed? && id in c.listing.ids)
    && (forall i, j :: 0 <= i < j < |ids| ==> ids[i] < ids[j])
  }

  /** A batch goes out under its host's key with the time of the reading that was taken for it. */
  lemma BatchSays(host: string, clock: Timespec, entries: seq<DomainStats>)
    ensures var m := BatchMessage(host, clock, entries);
      && m.data.Batch? && m.data.agg.hostname == host && m.data.agg.domains == entries
      && m.data.agg.tov.Finite? && Value(m.data.agg.tov) * 1000000000.0 == clock.Nanos() as real
      && ('\0' !in host && |host| <= 495 ==> m.key == "monitor.servers." + host)
  {
    ToRealNanos(clock);
  }

  lemma CycleBatch(s: MonState, c: Cycle)
    requires Coupled(s) && !s.halted && AllFound(s, c)
    ensures BatchFor(s.host, c, BatchMessage(s.host, c.clock, Reported(s, c)).data.agg)
  {
    BatchSays(s.host, c.clock, Reported(s, c));
    BatchLists(s, c);
  }

  lemma {:induction false} BatchesConcat(a: seq<Message>, b: seq<Message>)
    ensures Batches(a + b) == Batches(a) + Batches(b)
    decreases |b|
  {
    if b == [] {
      assert a + b == a;
    } else {
      var last := b[|b| - 1];
      BatchesConcat(a, b[..|b| - 1]);
      MostConcat(a, b);
      Assoc(Batches(a), Batches(b[..|b| - 1]), if last.data.Batch? then [last.data.agg] else []);
    }
  }

  lemma {:induction false} NoticesAreNoBatches(notices: seq<Message>)
    requires forall i :: 0 <= i < |notices| ==> notices[i].data.Notice?
    ensures Batches(notices) == []
    decreases |notices|
  {
    if notices != [] {
      NoticesAreNoBatches(notices[..|notices| - 1]);
    }
  }

  lemma BatchesAppend(sent: seq<Message>, m: Message)
    requires m.data.Batch?
    ensures Batches(sent + [m]) == Batches(sent) + [m.data.agg]
  {
    assert (sent + [m])[..|sent|] == sent;
  }

  lemma NoMoreBatches(batches: seq<AggregateStats>)
    ensures batches + [] == batches
  {
  }

  lemma CycleBatches(s: MonState, c: Cycle)
    requires Coupled(s) && !s.halted && !c.listing.CountFailed?
    ensures Batches(CycleResult(s, c).sent) == Batches(s.sent)
      + if AllFound(s, c) then [BatchMessage(s.host, c.clock, Reported(s, c)).data.agg] else []
  {
    NoticesAreNoBatches(Notified(s, c));
    BatchesConcat(s.sent, Notified(s, c));
    NoMoreBatches(Batches(s.sent));
    BatchesAppend(s.sent + Notified(s, c), BatchMessage(s.host, c.clock, Reported(s, c)));
  }

  /** The cycles before the one, if any, in which an exception ended the run. */
  ghost function Completed(host: string, cycles: seq<Cycle>): (n: nat)
    ensures n <= |cycles|
    decreases |cycles|
  {
    if cycles == [] then 0
    else if Story(host, cycles).halted then Completed(host, Most(cycles)) else |cycles|
  }

  ghost predicate BatchesFor(host: string, cycles: seq<Cycle>, batches: seq<AggregateStats>) {
    |batches| <= |cycles| && forall i :: 0 <= i < |batches| ==> BatchFor(host, cycles[i], batches[i])
  }

  lemma CompletedMore(host: string, cycles: seq<Cycle>)
    requires cycles != []
    ensures var s, c := Story(host, Most(cycles)), Last(cycles);
      && (!s.halted ==> Completed(host, Most(cycles)) == |cycles| - 1)
      && Completed(host, cycles)
         == if !s.halted && !c.listing.CountFailed? && AllFound(s, c) then |cycles| else Completed(host, Most(cycles))
  {
    ResultCoupled(Story(host, Most(cycles)), Last(cycles));
  }

  lemma BatchesForMore(host: string, cycles: seq<Cycle>, batches: seq<AggregateStats>, last: AggregateStats)
    requires cycles != [] && BatchesFor(host, Most(cycles), batches)
    requires |batches| == |cycles| - 1 && BatchFor(host, Last(cycles), last)
    ensures BatchesFor(host, cycles, batches + [last])
  {
    var all := batches + [last];
    forall i | 0 <= i < |all| ensures BatchFor(host, cycles[i], all[i]) {
      assert i < |batches| ==> all[i] == batches[i] && cycles[i] == Most(cycles)[i];
    }
  }

  lemma BatchesForKept(host: string, cycles: seq<Cycle>, batches: seq<AggregateStats>)
    requires cycles != [] && BatchesFor(host, Most(cycles), batches)
    ensures BatchesFor(host, cycles, batches)
  {
    forall i | 0 <= i < |batches| ensures BatchFor(host, cycles[i], batches[i]) {
      assert cycles[i] == Most(cycles)[i];
    }
  }

  lemma {:induction false} StoryBatches(host: string, cycles: seq<Cycle>)
    ensures |Batches(Story(host, cycles).sent)| == Completed(host, cycles)
    ensures BatchesFor(host, cycles, Batches(Story(host, cycles).sent))
    decreases |cycles|
  {
    if cycles != [] {
      var s, c := Story(host, Most(cycles)), Last(cycles);
      StoryBatches(host, Most(cycles));
      CompletedMore(host, cycles);
      if !s.halted && !c.listing.CountFailed? {
        CycleBatches(s, c);
      }
      if !s.halted && !c.listing.CountFailed? && AllFound(s, c) {
        CycleBatch(s, c);
        BatchesForMore(host, cycles, Batches(s.sent), BatchMessage(host, c.clock, Reported(s, c)).data.agg);
      } else {
        NoMoreBatches(Batches(s.sent));
        BatchesForKept(host, cycles, Batches(s.sent));
      }
    }
  }

  /** A run sends one batch for each completed cycle, in order, each with its own cycle's clock and domains. */
  lemma RunBatches(host: string, cycles: seq<Cycle>)
    ensures |Batches(Run(host, cycles).sent)| == Completed(host, cycles)
    ensures !Run(host, cycles).halted ==> Completed(host, cycles) == |cycles|
    ensures BatchesFor(host, cycles, Batches(Run(host, cycles).sent))
  {
    RunIsStory(host, cycles);
    StoryBatches(host, cycles);
  }
}
