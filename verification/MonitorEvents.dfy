/** The watcher's event history over whole runs. */
module MonitorEvents {
  import opened MonitorRuns
  import opened MonitorSpec
  import opened OrderedSets
  import opened Sequences
  import opened Stats
  import opened Text

  // ---------- the history is a function of the snapshots ----------

  /** The events of successive snapshots: departures then arrivals, each in id order. */
  ghost function History(cycles: seq<Cycle>): seq<Event>
    decreases |cycles|
  {
    if cycles == [] then []
    else
      var before, now := LastSnapshot(Most(cycles)), LastSnapshot(cycles);
      History(Most(cycles)) + RemovedEvents(Ascending(before - now)) + AddedEvents(Ascending(now - before))
  }

  lemma {:induction false} StoryEvents(host: string, cycles: seq<Cycle>)
    requires !Story(host, cycles).halted
    ensures Story(host, cycles).events == History(cycles)
    decreases |cycles|
  {
    if cycles != [] {
      StoryEvents(host, Most(cycles));
      AllFoundMeaning(Story(host, Most(cycles)), Last(cycles));
    }
  }

  /** The events of a run that has not halted depend on nothing but the listings. */
  lemma EventsDetermined(host: string, cycles: seq<Cycle>)
    requires !Run(host, cycles).halted
    ensures Run(host, cycles).events == History(cycles)
  {
    RunIsStory(host, cycles);
    StoryEvents(host, cycles);
  }

  /** A poll fires one event per domain in the symmetric difference. */
  lemma EventsPerPoll(cycles: seq<Cycle>)
    requires cycles != []
    ensures var before, now := LastSnapshot(Most(cycles)), LastSnapshot(cycles);
      |History(cycles)| - |History(Most(cycles))| == |(before - now) + (now - before)|
  {
    var before, now := LastSnapshot(Most(cycles)), LastSnapshot(cycles);
    AscendingOrder(before - now);
    AscendingOrder(now - before);
    assert (before - now) !! (now - before);
  }

  // ---------- alternation ----------

  function EventsOf(id: int, events: seq<Event>): seq<Event> {
    if events == [] then []
    else (if events[0].id == id then [events[0]] else []) + EventsOf(id, events[1..])
  }

  lemma {:induction false} EventsOfConcat(id: int, a: seq<Event>, b: seq<Event>)
    ensures EventsOf(id, a + b) == EventsOf(id, a) + EventsOf(id, b)
  {
    if a == [] {
      assert a + b == b;
    } else {
      EventsOfConcat(id, a[1..], b);
      TailConcat(a, b);
      var first := if a[0].id == id then [a[0]] else [];
      assert first + (EventsOf(id, a[1..]) + EventsOf(id, b)) == first + EventsOf(id, a[1..]) + EventsOf(id, b);
    }
  }

  predicate Increasing(a: seq<int>) {
    forall i, j :: 0 <= i < j < |a| ==> a[i] < a[j]
  }

  lemma {:induction false} OncePerId(id: int, a: seq<int>)
    requires Increasing(a)
    ensures EventsOf(id, RemovedEvents(a)) == if id in a then [Removed(id)] else []
    ensures EventsOf(id, AddedEvents(a)) == if id in a then [Added(id)] else []
  {
    if a != [] {
      OncePerId(id, a[1..]);
      assert RemovedEvents(a)[1..] == RemovedEvents(a[1..]);
      assert AddedEvents(a)[1..] == AddedEvents(a[1..]);
      assert id in a <==> a[0] == id || id in a[1..];
      assert a[0] == id ==> id !in a[1..];
    }
  }

  predicate Alternates(events: seq<Event>) {
    forall k :: 0 <= k < |events| ==> (events[k].Added? <==> k % 2 == 0)
  }

  /** The events of an id that leaves, or appears, or neither. */
  function Fired(id: int, leaves: bool, appears: bool): seq<Event> {
    (if leaves then [Removed(id)] else []) + (if appears then [Added(id)] else [])
  }

  lemma EventsOfMore(id: int, events: seq<Event>, gone: seq<int>, come: seq<int>)
    requires Increasing(gone) && Increasing(come)
    ensures EventsOf(id, events + RemovedEvents(gone) + AddedEvents(come))
         == EventsOf(id, events) + Fired(id, id in gone, id in come)
  {
    OncePerId(id, gone);
    OncePerId(id, come);
    EventsOfConcat(id, events, RemovedEvents(gone));
    EventsOfConcat(id, events + RemovedEvents(gone), AddedEvents(come));
    Assoc(EventsOf(id, events), EventsOf(id, RemovedEvents(gone)), EventsOf(id, AddedEvents(come)));
  }

  lemma TriedOrder(s: MonState, c: Cycle)
    ensures Increasing(Tried(s, c))
    ensures forall id | id in Tried(s, c) :: id in Come(s, c)
    ensures AllFound(s, c) ==> forall id | id in Come(s, c) :: id in Tried(s, c)
  {
    var a := Ascending(Come(s, c));
    AscendingOrder(Come(s, c));
    AllFoundMeaning(s, c);
    PrefixOrder(a, Tried(s, c));
  }

  lemma PrefixOrder(a: seq<int>, p: seq<int>)
    requires Increasing(a) && p <= a
    ensures Increasing(p) && forall id | id in p :: id in a
  {
    assert forall i :: 0 <= i < |p| ==> p[i] == a[i];
  }

  lemma CycleEventsOf(s: MonState, c: Cycle, id: int)
    requires Coupled(s) && !s.halted && !c.listing.CountFailed?
    ensures EventsOf(id, CycleResult(s, c).events)
         == EventsOf(id, s.events) + Fired(id, id in Gone(s, c), id in Tried(s, c))
  {
    AscendingOrder(Gone(s, c));
    TriedOrder(s, c);
    EventsOfMore(id, s.events, Ascending(Gone(s, c)), Tried(s, c));
  }

  lemma AlternatesMore(events: seq<Event>, id: int, leaves: bool, appears: bool)
    requires Alternates(events)
    requires leaves ==> |events| % 2 == 1
    requires appears ==> |events| % 2 == 0
    ensures Alternates(events + Fired(id, leaves, appears))
    ensures |events + Fired(id, leaves, appears)| % 2 == if leaves then 0 else if appears then 1 else |events| % 2
  {
  }

  lemma {:induction false} StoryAlternates(host: string, cycles: seq<Cycle>, id: int)
    ensures Alternates(EventsOf(id, Story(host, cycles).events))
    ensures !Story(host, cycles).halted ==>
      (id in Story(host, cycles).active <==> |EventsOf(id, Story(host, cycles).events)| % 2 == 1)
    decreases |cycles|
  {
    if cycles != [] {
      var s, c := Story(host, Most(cycles)), Last(cycles);
      StoryAlternates(host, Most(cycles), id);
      if !s.halted && !c.listing.CountFailed? {
        CycleEventsOf(s, c, id);
        TriedOrder(s, c);
        AlternatesMore(EventsOf(id, s.events), id, id in Gone(s, c), id in Tried(s, c));
      }
    }
  }

  /** For every id, additions and removals strictly alternate starting with an addition, and the domain
      is being monitored exactly after an odd number of events. */
  lemma EventsAlternate(host: string, cycles: seq<Cycle>, id: int)
    ensures Alternates(EventsOf(id, Run(host, cycles).events))
    ensures !Run(host, cycles).halted ==>
      (cycles != [] && Lists(Last(cycles), id) <==> |EventsOf(id, Run(host, cycles).events)| % 2 == 1)
  {
    RunIsStory(host, cycles);
    if cycles != [] { SnapshotLists(Last(cycles), id); }
    StoryAlternates(host, cycles, id);
  }

  // ---------- notices, removals and freed trackers are one log ----------

  function RemovedIds(events: seq<Event>): seq<int> {
    if events == [] then []
    else RemovedIds(events[..|events| - 1])
         + (if events[|events| - 1].Removed? then [events[|events| - 1].id] else [])
  }

  function Notices(sent: seq<Message>): seq<Payload> {
    if sent == [] then []
    else Notices(sent[..|sent| - 1]) + (if sent[|sent| - 1].key == TERM_KEY then [sent[|sent| - 1].data] else [])
  }

  function IdsOf(lives: seq<Life>): seq<int> {
    seq(|lives|, i requires 0 <= i < |lives| => lives[i].cur.id)
  }

  function NoticesFor(host: string, lives: seq<Life>): seq<Payload> {
    seq(|lives|, i requires 0 <= i < |lives| => Notice(Ident(host, lives[i].cur.uuid)))
  }

  lemma {:induction false} RemovedIdsConcat(a: seq<Event>, b: seq<Event>)
    ensures RemovedIds(a + b) == RemovedIds(a) + RemovedIds(b)
    decreases |b|
  {
    if b == [] {
      assert a + b == a;
    } else {
      RemovedIdsConcat(a, b[..|b| - 1]);
      MostConcat(a, b);
    }
  }

  lemma {:induction false} RemovedIdsOf(ids: seq<int>)
    ensures RemovedIds(RemovedEvents(ids)) == ids && RemovedIds(AddedEvents(ids)) == []
    decreases |ids|
  {
    if ids != [] {
      var most := ids[..|ids| - 1];
      RemovedIdsOf(most);
      assert RemovedEvents(ids)[..|most|] == RemovedEvents(most) && AddedEvents(ids)[..|most|] == AddedEvents(most);
    }
  }

  lemma RemovedIdsAppend(events: seq<Event>, gone: seq<int>, come: seq<int>)
    ensures RemovedIds(events + RemovedEvents(gone) + AddedEvents(come)) == RemovedIds(events) + gone
  {
    RemovedIdsConcat(events + RemovedEvents(gone), AddedEvents(come));
    RemovedIdsConcat(events, RemovedEvents(gone));
    RemovedIdsOf(gone);
    RemovedIdsOf(come);
  }

  lemma {:induction false} NoticesAppend(host: string, sent: seq<Message>, trackers: map<int, Life>, ids: seq<int>)
    requires forall i :: 0 <= i < |ids| ==> ids[i] in trackers
    ensures Notices(sent + Terms(host, trackers, ids)) == Notices(sent) + NoticesFor(host, Lives(trackers, ids))
    decreases |ids|
  {
    var all := sent + Terms(host, trackers, ids);
    if ids != [] {
      var n := |ids| - 1;
      NoticesAppend(host, sent, trackers, ids[..n]);
      assert all[..|all| - 1] == sent + Terms(host, trackers, ids[..n]);
      assert NoticesFor(host, Lives(trackers, ids))
          == NoticesFor(host, Lives(trackers, ids[..n])) + [Notice(Ident(host, trackers[ids[n]].cur.uuid))];
    } else {
      assert all == sent;
    }
  }

  /** A host name cannot make a batch key look like the notice key. */
  lemma BatchIsNoNotice(host: string, c: Cycle, e: seq<DomainStats>)
    ensures BatchMessage(host, c.clock, e).key != TERM_KEY
  {
    var key := BatchMessage(host, c.clock, e).key;
    assert key == Snprintf(512, SERVERS_PREFIX + CStr(host));
    assert key[8] == 's';
    assert TERM_KEY[8] == 't';
  }

  lemma LogsAppend(host: string, lives: seq<Life>, more: seq<Life>)
    ensures IdsOf(lives + more) == IdsOf(lives) + IdsOf(more)
    ensures NoticesFor(host, lives + more) == NoticesFor(host, lives) + NoticesFor(host, more)
  {
  }

  lemma EndedIds(s: MonState, c: Cycle)
    requires Coupled(s) && !s.halted
    ensures IdsOf(Ended(s, c)) == Ascending(Gone(s, c))
  {
  }

  lemma CycleLogs(s: MonState, c: Cycle)
    requires Coupled(s) && !s.halted && !c.listing.CountFailed?
    ensures RemovedIds(CycleResult(s, c).events) == RemovedIds(s.events) + IdsOf(Ended(s, c))
    ensures Notices(CycleResult(s, c).sent) == Notices(s.sent) + NoticesFor(s.host, Ended(s, c))
  {
    var gone := Ascending(Gone(s, c));
    EndedIds(s, c);
    RemovedIdsAppend(s.events, gone, Tried(s, c));
    NoticesAppend(s.host, s.sent, s.trackers, gone);
    if AllFound(s, c) {
      BatchIsNoNotice(s.host, c, Reported(s, c));
      NoticesOther(s.sent + Notified(s, c), BatchMessage(s.host, c.clock, Reported(s, c)));
    }
  }

  lemma NoticesOther(sent: seq<Message>, m: Message)
    requires m.key != TERM_KEY
    ensures Notices(sent + [m]) == Notices(sent)
  {
    assert (sent + [m])[..|sent|] == sent;
  }

  lemma {:induction false} StoryLogs(host: string, cycles: seq<Cycle>)
    ensures var s := Story(host, cycles);
      RemovedIds(s.events) == IdsOf(s.retired) && Notices(s.sent) == NoticesFor(host, s.retired)
    decreases |cycles|
  {
    if cycles != [] {
      var s, c := Story(host, Most(cycles)), Last(cycles);
      StoryLogs(host, Most(cycles));
      if !s.halted && !c.listing.CountFailed? {
        CycleLogs(s, c);
        LogsAppend(host, s.retired, Ended(s, c));
      }
    }
  }

  /** Termination notices, removal events and freed trackers correspond one to one, in order. */
  lemma LogsAgree(host: string, cycles: seq<Cycle>)
    ensures var s := Run(host, cycles);
      RemovedIds(s.events) == IdsOf(s.retired) && Notices(s.sent) == NoticesFor(host, s.retired)
  {
    RunIsStory(host, cycles);
    StoryLogs(host, cycles);
  }

  /** The last cycle got as far as comparing the listing: no earlier one halted the run and the count succeeded. */
  ghost predicate Compared(cycles: seq<Cycle>)
    requires cycles != []
  {
    !Last(cycles).listing.CountFailed? && forall k :: 0 <= k < |Most(cycles)| ==> !BadAt(Most(cycles), k)
  }

  /** Number of times a domain was in one snapshot and not in the next, among the snapshots compared. */
  ghost function Departures(id: int, cycles: seq<Cycle>): nat
    decreases |cycles|
  {
    if cycles == [] then 0
    else
      Departures(id, Most(cycles))
      + if Compared(cycles) && id in LastSnapshot(Most(cycles)) - LastSnapshot(cycles) then 1 else 0
  }

  function Occurrences(id: int, ids: seq<int>): nat {
    if ids == [] then 0 else (if ids[0] == id then 1 else 0) + Occurrences(id, ids[1..])
  }

  lemma {:induction false} OccurrencesConcat(id: int, a: seq<int>, b: seq<int>)
    ensures Occurrences(id, a + b) == Occurrences(id, a) + Occurrences(id, b)
  {
    if a == [] {
      assert a + b == b;
    } else {
      OccurrencesConcat(id, a[1..], b);
      TailConcat(a, b);
    }
  }

  lemma {:induction false} OccursOnce(id: int, a: seq<int>)
    requires Increasing(a)
    ensures Occurrences(id, a) == if id in a then 1 else 0
  {
    if a != [] {
      OccursOnce(id, a[1..]);
      assert id in a <==> a[0] == id || id in a[1..];
      assert a[0] == id ==> id !in a[1..];
    }
  }

  lemma {:induction false} StoryDepartures(host: string, cycles: seq<Cycle>, id: int)
    ensures Occurrences(id, IdsOf(Story(host, cycles).retired)) == Departures(id, cycles)
    decreases |cycles|
  {
    if cycles != [] {
      var s, c := Story(host, Most(cycles)), Last(cycles);
      StoryDepartures(host, Most(cycles), id);
      StoryHalts(host, Most(cycles));
      if !s.halted && !c.listing.CountFailed? {
        EndedOccurrences(s, c, id);
      }
    }
  }

  lemma EndedOccurrences(s: MonState, c: Cycle, id: int)
    requires Coupled(s) && !s.halted
    ensures Occurrences(id, IdsOf(s.retired + Ended(s, c)))
         == Occurrences(id, IdsOf(s.retired)) + if id in Gone(s, c) then 1 else 0
  {
    EndedIds(s, c);
    LogsAppend(s.host, s.retired, Ended(s, c));
    AscendingOrder(Gone(s, c));
    OccursOnce(id, IdsOf(Ended(s, c)));
    OccurrencesConcat(id, IdsOf(s.retired), IdsOf(Ended(s, c)));
  }

  /** A domain's freed trackers, and so its notices, number its present-to-absent edges in the listings a run
      compared, the listing whose lookups ended the run included. */
  lemma NoticesCountDepartures(host: string, cycles: seq<Cycle>, id: int)
    ensures Occurrences(id, IdsOf(Run(host, cycles).retired)) == Departures(id, cycles)
  {
    RunIsStory(host, cycles);
    StoryDepartures(host, cycles, id);
  }
}
