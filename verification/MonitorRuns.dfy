/** What monitor runs amount to: the loops of MonitorSpec in closed form, and the coupling they keep. */
module MonitorRuns {
  import opened MonitorSpec
  import opened OrderedSets
  import opened Stats
  import opened Trackers

  // ---------- one cycle, declaratively ----------

  ghost function Gone(s: MonState, c: Cycle): set<int> { s.active - Snapshot(c) }

  ghost function Come(s: MonState, c: Cycle): set<int> { Snapshot(c) - s.active }

  /** The ids found new in this cycle that could be looked up before the first failure, in order. */
  ghost function Found(s: MonState, c: Cycle): (f: seq<int>)
    ensures forall i :: 0 <= i < |f| ==> f[i] in c.births
  {
    var a := Ascending(Come(s, c));
    a[..Lookups(a, c.births)]
  }

  /** The new ids whose trackers were attempted: those found, and the one whose lookup failed. */
  ghost function Tried(s: MonState, c: Cycle): seq<int> {
    Attempted(Ascending(Come(s, c)), c.births)
  }

  ghost predicate AllFound(s: MonState, c: Cycle) {
    forall id | id in Come(s, c) :: id in c.births
  }

  /** The trackers once departed domains are dropped and new ones added. */
  ghost function Polled(s: MonState, c: Cycle): map<int, Life> {
    WithBorn(s.trackers - Gone(s, c), Found(s, c), c.births)
  }

  /** The lives that end in this cycle. */
  ghost function Ended(s: MonState, c: Cycle): seq<Life>
    requires Coupled(s) && !s.halted
  {
    Lives(s.trackers, Ascending(Gone(s, c)))
  }

  /** The termination notices of this cycle. */
  ghost function Notified(s: MonState, c: Cycle): seq<Message>
    requires Coupled(s) && !s.halted
  {
    Terms(s.host, s.trackers, Ascending(Gone(s, c)))
  }

  /** The entries of this cycle's batch: one for each tracker, in id order. */
  ghost function Reported(s: MonState, c: Cycle): seq<DomainStats> {
    Entries(Polled(s, c), Ascending(Polled(s, c).Keys), c)
  }

  /** A cycle drops the departed domains, announcing each in id order, and adds the new ones in id order.
      A failed lookup ends the run there; otherwise one batch with an entry per listed id is sent. */
  ghost function CycleResult(s: MonState, c: Cycle): MonState
    requires Coupled(s)
  {
    if s.halted then s
    else if c.listing.CountFailed? then s.(halted := true)
    else if !AllFound(s, c) then
      s.(trackers := Polled(s, c),
         retired := s.retired + Ended(s, c),
         events := s.events + RemovedEvents(Ascending(Gone(s, c))) + AddedEvents(Tried(s, c)),
         sent := s.sent + Notified(s, c),
         halted := true)
    else
      s.(active := Snapshot(c),
         trackers := Advanced(Polled(s, c), Polled(s, c).Keys, c),
         retired := s.retired + Ended(s, c),
         events := s.events + RemovedEvents(Ascending(Gone(s, c))) + AddedEvents(Tried(s, c)),
         sent := s.sent + Notified(s, c) + [BatchMessage(s.host, c.clock, Reported(s, c))])
  }

  lemma LookupsAll(a: seq<int>, births: map<int, Birth>)
    ensures (forall i :: 0 <= i < |a| ==> a[i] in births) <==> Lookups(a, births) == |a|
  {
  }

  lemma AllFoundMeaning(s: MonState, c: Cycle)
    ensures var a := Ascending(Come(s, c));
      && (AllFound(s, c) <==> Lookups(a, c.births) == |a|)
      && (AllFound(s, c) ==> Found(s, c) == Tried(s, c) == a)
  {
    var a := Ascending(Come(s, c));
    AscendingOrder(Come(s, c));
    LookupsAll(a, c.births);
    assert forall i :: 0 <= i < |a| ==> a[i] in Come(s, c);
  }

  lemma PolledMeaning(s: MonState, c: Cycle)
    requires Coupled(s) && !s.halted && !c.listing.CountFailed?
    ensures PollStep(s, c) == s.(
        trackers := Polled(s, c),
        retired := s.retired + Ended(s, c),
        events := s.events + RemovedEvents(Ascending(Gone(s, c))) + AddedEvents(Tried(s, c)),
        sent := s.sent + Notified(s, c),
        halted := !AllFound(s, c),
        active := if AllFound(s, c) then Snapshot(c) else s.active)
  {
    RemoveAllMeaning(s, Gone(s, c));
    AddAllMeaning(RemoveAll(s, Gone(s, c)), Come(s, c), c.births);
    AllFoundMeaning(s, c);
  }

  lemma PublishMeaning(s: MonState, c: Cycle)
    ensures PublishStep(s, c) == s.(
      trackers := Advanced(s.trackers, s.trackers.Keys, c),
      sent := s.sent + [BatchMessage(s.host, c.clock, Entries(s.trackers, Ascending(s.trackers.Keys), c))])
  {
    UpdateAllMeaning(s, s.trackers.Keys, c, []);
    var e := Entries(s.trackers, Ascending(s.trackers.Keys), c);
    assert [] + e == e;
  }

  /** The cycle the code runs, one handler call and one update at a time, is the cycle just described. */
  lemma CycleMeaning(s: MonState, c: Cycle)
    requires Coupled(s)
    ensures CycleStep(s, c) == CycleResult(s, c)
  {
    if !s.halted && !c.listing.CountFailed? {
      PolledMeaning(s, c);
      PublishMeaning(PollStep(s, c), c);
    }
  }

  // ---------- coupling ----------

  lemma PolledKeys(s: MonState, c: Cycle)
    requires Coupled(s) && !s.halted && AllFound(s, c)
    ensures Polled(s, c).Keys == Snapshot(c)
  {
    var born := Found(s, c);
    AscendingOrder(Come(s, c));
    AllFoundMeaning(s, c);
    assert forall id :: id in born <==> id in Come(s, c);
    KeysAfter(s.trackers, Snapshot(c), born, c.births);
  }

  lemma KeysAfter(m: map<int, Life>, now: set<int>, born: seq<int>, births: map<int, Birth>)
    requires forall i :: 0 <= i < |born| ==> born[i] in births
    requires forall id :: id in born <==> id in now - m.Keys
    ensures WithBorn(m - (m.Keys - now), born, births).Keys == now
  {
    forall id ensures id in WithBorn(m - (m.Keys - now), born, births) <==> id in now {
      assert id in born <==> id in now - m.Keys;
    }
  }

  lemma PolledCoupled(s: MonState, c: Cycle)
    requires Coupled(s)
    ensures forall id | id in Polled(s, c) ::
      && Polled(s, c)[id].cur.id == Polled(s, c)[id].birth.id == id
      && Polled(s, c)[id].cur.uuid == Polled(s, c)[id].birth.uuid
  {
  }

  lemma AdvancedCoupled(s: MonState, c: Cycle)
    requires Coupled(s)
    ensures var t := Advanced(Polled(s, c), Polled(s, c).Keys, c);
      forall id | id in t :: t[id].cur.id == t[id].birth.id == id && t[id].cur.uuid == t[id].birth.uuid
  {
    PolledCoupled(s, c);
  }

  lemma ResultCoupled(s: MonState, c: Cycle)
    requires Coupled(s)
    ensures var s' := CycleResult(s, c);
      && Coupled(s') && s'.host == s.host
      && (s'.halted <==> s.halted || c.listing.CountFailed? || !AllFound(s, c))
      && (!s'.halted ==> s'.trackers.Keys == Snapshot(c))
  {
    if !s.halted && !c.listing.CountFailed? {
      if AllFound(s, c) {
        PolledKeys(s, c);
        AdvancedCoupled(s, c);
      } else {
        PolledCoupled(s, c);
      }
    }
  }

  ghost function Most(cycles: seq<Cycle>): seq<Cycle>
    requires cycles != []
  {
    cycles[..|cycles| - 1]
  }

  ghost function Last(cycles: seq<Cycle>): Cycle
    requires cycles != []
  {
    cycles[|cycles| - 1]
  }

  ghost function LastSnapshot(cycles: seq<Cycle>): set<int> {
    if cycles == [] then {} else Snapshot(Last(cycles))
  }

  /** A whole run as a succession of declarative cycles. */
  ghost function Story(host: string, cycles: seq<Cycle>): (s: MonState)
    ensures Coupled(s) && s.host == host
    ensures !s.halted ==> s.trackers.Keys == s.active == LastSnapshot(cycles)
    decreases |cycles|
  {
    if cycles == [] then Init(host)
    else
      var s := Story(host, Most(cycles));
      ResultCoupled(s, Last(cycles));
      CycleResult(s, Last(cycles))
  }

  /** The code's runs are exactly the declarative ones. */
  lemma {:induction false} RunIsStory(host: string, cycles: seq<Cycle>)
    ensures Run(host, cycles) == Story(host, cycles)
    decreases |cycles|
  {
    if cycles != [] {
      RunIsStory(host, Most(cycles));
      CycleMeaning(Story(host, Most(cycles)), Last(cycles));
    }
  }

  /** After every cycle of every run the tracker map, the watcher's set and the hypervisor's listing
      agree, and no warning branch has been taken. */
  lemma RunCoupled(host: string, cycles: seq<Cycle>)
    ensures Coupled(Run(host, cycles)) && Run(host, cycles).warnings == 0
    ensures !Run(host, cycles).halted ==>
      Run(host, cycles).trackers.Keys == Run(host, cycles).active == LastSnapshot(cycles)
    ensures !Run(host, cycles).halted && cycles != [] ==> forall id ::
      id in Run(host, cycles).trackers <==> Last(cycles).listing.Listed? && id in Last(cycles).listing.ids
  {
    RunIsStory(host, cycles);
    if cycles != [] {
      forall id ensures id in Snapshot(Last(cycles)) <==>
        Last(cycles).listing.Listed? && id in Last(cycles).listing.ids
      {
        SnapshotLists(Last(cycles), id);
      }
    }
  }

  // ---------- when a run ends ----------

  ghost predicate BadCycle(before: set<int>, c: Cycle) {
    c.listing.CountFailed? || exists id | id in Snapshot(c) - before :: id !in c.births
  }

  ghost predicate BadAt(cycles: seq<Cycle>, k: nat)
    requires k < |cycles|
  {
    BadCycle(LastSnapshot(cycles[..k]), cycles[k])
  }

  lemma BadPrefix(cycles: seq<Cycle>)
    requires cycles != []
    ensures var n := |cycles| - 1;
      (exists k :: 0 <= k < |cycles| && BadAt(cycles, k)) <==>
      (exists k :: 0 <= k < n && BadAt(cycles[..n], k)) || BadAt(cycles, n)
  {
    var n := |cycles| - 1;
    forall k | 0 <= k < n ensures BadAt(cycles[..n], k) == BadAt(cycles, k) {
      assert cycles[..n][..k] == cycles[..k];
    }
  }

  lemma {:induction false} StoryHalts(host: string, cycles: seq<Cycle>)
    ensures Story(host, cycles).halted <==> exists k :: 0 <= k < |cycles| && BadAt(cycles, k)
    decreases |cycles|
  {
    if cycles != [] {
      StoryHalts(host, Most(cycles));
      BadPrefix(cycles);
      ResultCoupled(Story(host, Most(cycles)), Last(cycles));
    }
  }

  /** A run halts exactly when some cycle could not count the domains or look a new one up. */
  lemma HaltsWhen(host: string, cycles: seq<Cycle>)
    ensures Run(host, cycles).halted <==> exists k :: 0 <= k < |cycles| && BadAt(cycles, k)
  {
    RunIsStory(host, cycles);
    StoryHalts(host, cycles);
  }

  /** Once an exception has left main the run changes no more. */
  lemma {:induction false} HaltedForever(host: string, cycles: seq<Cycle>, k: nat)
    requires k <= |cycles| && Run(host, cycles[..k]).halted
    ensures Run(host, cycles) == Run(host, cycles[..k])
    decreases |cycles|
  {
    if k < |cycles| {
      var most := cycles[..|cycles| - 1];
      assert most[..k] == cycles[..k];
      HaltedForever(host, most, k);
    } else {
      assert cycles[..k] == cycles;
    }
  }

  // ---------- what a batch lists ----------

  function IdsIn(d: seq<DomainStats>): seq<int> {
    seq(|d|, i requires 0 <= i < |d| => d[i].id)
  }

  lemma EntriesIds(m: map<int, Life>, ids: seq<int>, c: Cycle)
    requires forall i :: 0 <= i < |ids| ==> ids[i] in m && m[ids[i]].cur.id == ids[i]
    ensures IdsIn(Entries(m, ids, c)) == ids
  {
  }

  /** Each batch has one entry per listed id, in strictly ascending order. */
  lemma BatchLists(s: MonState, c: Cycle)
    requires Coupled(s) && !s.halted && AllFound(s, c)
    ensures var ids := IdsIn(Reported(s, c));
      && (forall id :: id in ids <==> c.listing.Listed? && id in c.listing.ids)
      && (forall i, j :: 0 <= i < j < |ids| ==> ids[i] < ids[j])
  {
    forall id ensures id in Snapshot(c) <==> c.listing.Listed? && id in c.listing.ids {
      SnapshotLists(c, id);
    }
    AscendingOrder(Snapshot(c));
    PolledKeys(s, c);
    PolledCoupled(s, c);
    EntriesIds(Polled(s, c), Ascending(Snapshot(c)), c);
  }

  lemma PolledUuid(s: MonState, c: Cycle, id: int)
    requires Coupled(s) && id in Polled(s, c)
    ensures id !in Found(s, c) ==> id in s.trackers
    ensures Polled(s, c)[id].cur.uuid == if id in Found(s, c) then c.births[id].uuid else s.trackers[id].cur.uuid
  {
  }
}
