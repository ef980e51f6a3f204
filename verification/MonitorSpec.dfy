/** What one monitor does, cycle by cycle: src/ActiveDomainWatcher.hh and src/DomainStatPublisher.hh
    as functions on values. The classes in Publisher are proved against these functions. */
module MonitorSpec {
  import opened Numerals
  import opened OrderedSets
  import opened Stats
  import opened Text
  import opened Timespecs
  import opened Trackers

  /** The hypervisor's answer to "how many domains" and "which domains". */
  datatype Listing = CountFailed | ListFailed | Listed(ids: seq<int>)

  /** Everything the environment decides during one cycle. An id without a birth cannot be looked up;
      an id without a sample has all its calls fail. */
  datatype Cycle = Cycle(listing: Listing, births: map<int, Birth>, samples: map<int, Sample>, clock: Timespec)

  datatype Event = Added(id: int) | Removed(id: int)

  /** A tracker's lifetime so far: its state at construction and now, and its samples in between. */
  datatype Life = Life(birth: TrackerState, cur: TrackerState, samples: seq<Sample>)

  /** halted: an exception left main. */
  datatype MonState = MonState(
    host: string, active: set<int>, trackers: map<int, Life>,
    retired: seq<Life>, events: seq<Event>, sent: seq<Message>, warnings: nat, halted: bool)

  function Init(host: string): MonState {
    MonState(host, {}, map[], [], [], [], 0, false)
  }

  function Newborn(id: int, b: Birth): Life {
    Life(Born(id, b), Born(id, b), [])
  }

  // ---------- messages ----------

  function Ident(host: string, uuid: string): string {
    "servers." + host + "." + uuid
  }

  function TermMessage(host: string, uuid: string): Message {
    Message(TERM_KEY, Notice(Ident(host, uuid)))
  }

  function ToNum(r: real): Num {
    if r < 0.0 then Finite(true, -r) else Finite(false, r)
  }

  function BatchMessage(host: string, clock: Timespec, entries: seq<DomainStats>): Message {
    Message(Snprintf(512, SERVERS_PREFIX + CStr(host)), Batch(AggregateStats(ToNum(ToReal(clock)), host, entries)))
  }

  // ---------- the handlers ----------

  function RemoveTracker(s: MonState, id: int): MonState {
    var s' := s.(events := s.events + [Removed(id)]);
    if id !in s.trackers then s'.(warnings := s.warnings + 1)
    else
      s'.(sent := s.sent + [TermMessage(s.host, s.trackers[id].cur.uuid)],
          retired := s.retired + [s.trackers[id]],
          trackers := s.trackers - {id})
  }

  function AddTracker(s: MonState, id: int, births: map<int, Birth>): MonState {
    var s' := s.(events := s.events + [Added(id)]);
    var s'' := if id in s.trackers
      then s'.(warnings := s.warnings + 1, retired := s.retired + [s.trackers[id]])
      else s';
    if id in births
      then s''.(trackers := s.trackers[id := Newborn(id, births[id])])
      else s''.(halted := true)
  }

  // ---------- one cycle, in the order the code runs ----------

  ghost function RemoveAll(s: MonState, ids: set<int>): MonState
    decreases ids
  {
    if ids == {} then s else RemoveAll(RemoveTracker(s, Min(ids)), ids - {Min(ids)})
  }

  ghost function AddAll(s: MonState, ids: set<int>, births: map<int, Birth>): MonState
    decreases ids
  {
    if ids == {} || s.halted then s
    else AddAll(AddTracker(s, Min(ids), births), ids - {Min(ids)}, births)
  }

  function Snapshot(c: Cycle): set<int> {
    if c.listing.Listed? then set x | x in c.listing.ids else {}
  }

  /** The hypervisor's listing has the id. */
  predicate Lists(c: Cycle, id: int) {
    c.listing.Listed? && id in c.listing.ids
  }

  /** The snapshot is the listing as a set: no id is left out and none added. */
  lemma SnapshotLists(c: Cycle, id: int)
    ensures id in Snapshot(c) <==> c.listing.Listed? && id in c.listing.ids
  {
  }

  ghost function DiffStep(s: MonState, now: set<int>, births: map<int, Birth>): MonState {
    var s1 := RemoveAll(s, s.active - now);
    var s2 := AddAll(s1, now - s.active, births);
    if s2.halted then s2 else s2.(active := now)
  }

  ghost function PollStep(s: MonState, c: Cycle): MonState {
    if c.listing.CountFailed? then s.(halted := true) else DiffStep(s, Snapshot(c), c.births)
  }

  function SampleOf(c: Cycle, id: int): Sample {
    if id in c.samples then c.samples[id] else Sample(c.clock, None, None, None)
  }

  function Advance(l: Life, s: Sample): Life {
    Life(l.birth, Updated(l.cur, s).0, l.samples + [s])
  }

  ghost function UpdateAll(s: MonState, ids: set<int>, c: Cycle, entries: seq<DomainStats>): (MonState,
      seq<DomainStats>)
    requires ids <= s.trackers.Keys
    decreases ids
  {
    if ids == {} then (s, entries)
    else
      var id := Min(ids);
      var sample := SampleOf(c, id);
      UpdateAll(s.(trackers := s.trackers[id := Advance(s.trackers[id], sample)]), ids - {id}, c,
                entries + [Updated(s.trackers[id].cur, sample).1])
  }

  ghost function PublishStep(s: MonState, c: Cycle): MonState {
    var (s', entries) := UpdateAll(s, s.trackers.Keys, c, []);
    s'.(sent := s'.sent + [BatchMessage(s.host, c.clock, entries)])
  }

  ghost function CycleStep(s: MonState, c: Cycle): MonState {
    if s.halted then s
    else
      var s1 := PollStep(s, c);
      if s1.halted then s1 else PublishStep(s1, c)
  }

  /** The state after a whole run; main calls update until an exception ends the process. */
  ghost function Run(host: string, cycles: seq<Cycle>): MonState {
    if cycles == [] then Init(host)
    else CycleStep(Run(host, cycles[..|cycles| - 1]), cycles[|cycles| - 1])
  }

  // ---------- what a cycle amounts to ----------

  /** Watcher and publisher agree on what is monitored, and no warning branch was ever taken. */
  ghost predicate Coupled(s: MonState) {
    && s.warnings == 0
    && (!s.halted ==> s.active == s.trackers.Keys)
    && forall id | id in s.trackers ::
         s.trackers[id].cur.id == s.trackers[id].birth.id == id && s.trackers[id].cur.uuid == s.trackers[id].birth.uuid
  }

  ghost function Terms(host: string, trackers: map<int, Life>, ids: seq<int>): (r: seq<Message>)
    requires forall i :: 0 <= i < |ids| ==> ids[i] in trackers
  {
    seq(|ids|, i requires 0 <= i < |ids| => TermMessage(host, trackers[ids[i]].cur.uuid))
  }

  ghost function Lives(trackers: map<int, Life>, ids: seq<int>): seq<Life>
    requires forall i :: 0 <= i < |ids| ==> ids[i] in trackers
  {
    seq(|ids|, i requires 0 <= i < |ids| => trackers[ids[i]])
  }

  ghost function Entries(trackers: map<int, Life>, ids: seq<int>, c: Cycle): seq<DomainStats>
    requires forall i :: 0 <= i < |ids| ==> ids[i] in trackers
  {
    seq(|ids|, i requires 0 <= i < |ids| => Updated(trackers[ids[i]].cur, SampleOf(c, ids[i])).1)
  }

  function RemovedEvents(ids: seq<int>): seq<Event> {
    seq(|ids|, i requires 0 <= i < |ids| => Removed(ids[i]))
  }

  function AddedEvents(ids: seq<int>): seq<Event> {
    seq(|ids|, i requires 0 <= i < |ids| => Added(ids[i]))
  }

  /** How many of the ids, in order, can be looked up before the first failure. */
  function Lookups(ids: seq<int>, births: map<int, Birth>): (k: nat)
    ensures k <= |ids|
    ensures forall i :: 0 <= i < k ==> ids[i] in births
    ensures k < |ids| ==> ids[k] !in births
  {
    if ids == [] || ids[0] !in births then 0 else 1 + Lookups(ids[1..], births)
  }

  /** The ids whose addition is attempted: those looked up, and the one that fails. */
  function Attempted(ids: seq<int>, births: map<int, Birth>): seq<int> {
    var k := Lookups(ids, births);
    if k < |ids| then ids[..k + 1] else ids
  }

  /** The given trackers plus newborn ones for the listed ids. */
  ghost function WithBorn(trackers: map<int, Life>, ids: seq<int>, births: map<int, Birth>): map<int, Life>
    requires forall i :: 0 <= i < |ids| ==> ids[i] in births
  {
    trackers + map id | id in ids :: Newborn(id, births[id])
  }

  lemma LivesCons(retired: seq<Life>, m: map<int, Life>, id: int, rest: seq<int>)
    requires id in m && forall i :: 0 <= i < |rest| ==> rest[i] in m - {id}
    ensures retired + [m[id]] + Lives(m - {id}, rest) == retired + Lives(m, [id] + rest)
  {
  }

  lemma RemovedEventsCons(events: seq<Event>, id: int, rest: seq<int>)
    ensures events + [Removed(id)] + RemovedEvents(rest) == events + RemovedEvents([id] + rest)
  {
  }

  lemma TermsCons(sent: seq<Message>, host: string, m: map<int, Life>, id: int, rest: seq<int>)
    requires id in m && forall i :: 0 <= i < |rest| ==> rest[i] in m - {id}
    ensures sent + [TermMessage(host, m[id].cur.uuid)] + Terms(host, m - {id}, rest)
         == sent + Terms(host, m, [id] + rest)
  {
  }

  lemma {:induction false} RemoveAllMeaning(s: MonState, ids: set<int>)
    requires ids <= s.trackers.Keys
    ensures RemoveAll(s, ids) == s.(
      trackers := s.trackers - ids,
      retired := s.retired + Lives(s.trackers, Ascending(ids)),
      events := s.events + RemovedEvents(Ascending(ids)),
      sent := s.sent + Terms(s.host, s.trackers, Ascending(ids)))
    decreases ids
  {
    var a := Ascending(ids);
    if ids != {} {
      var id := Min(ids);
      var s1 := RemoveTracker(s, id);
      var a1 := Ascending(ids - {id});
      RemoveAllMeaning(s1, ids - {id});
      assert a == [id] + a1;
      assert s1.trackers - (ids - {id}) == s.trackers - ids;
      LivesCons(s.retired, s.trackers, id, a1);
      RemovedEventsCons(s.events, id, a1);
      TermsCons(s.sent, s.host, s.trackers, id, a1);
    } else {
      assert s.trackers - {} == s.trackers;
      assert s.retired + Lives(s.trackers, a) == s.retired;
      assert s.events + RemovedEvents(a) == s.events;
      assert s.sent + Terms(s.host, s.trackers, a) == s.sent;
    }
  }

  lemma AddOneMore(s: MonState, id: int, rest: seq<int>, births: map<int, Birth>)
    requires id in births
    ensures var a := [id] + rest;
      var k := Lookups(rest, births);
      && Lookups(a, births) == k + 1 && a[..k + 1] == [id] + rest[..k]
      && Attempted(a, births) == [id] + Attempted(rest, births)
  {
    assert ([id] + rest)[1..] == rest;
  }

  lemma WithBornCons(trackers: map<int, Life>, id: int, rest: seq<int>, births: map<int, Birth>)
    requires id in births && forall i :: 0 <= i < |rest| ==> rest[i] in births
    ensures WithBorn(trackers[id := Newborn(id, births[id])], rest, births)
         == WithBorn(trackers, [id] + rest, births)
  {
  }

  lemma AddedEventsCons(events: seq<Event>, id: int, rest: seq<int>)
    ensures events + [Added(id)] + AddedEvents(rest) == events + AddedEvents([id] + rest)
  {
  }

  /** All ids are added up to the first whose lookup fails, which halts the monitor. */
  lemma {:induction false} AddAllMeaning(s: MonState, ids: set<int>, births: map<int, Birth>)
    requires ids !! s.trackers.Keys && !s.halted
    ensures var a := Ascending(ids);
      var k := Lookups(a, births);
      AddAll(s, ids, births) == s.(
        trackers := WithBorn(s.trackers, a[..k], births),
        events := s.events + AddedEvents(Attempted(a, births)),
        halted := k < |a|)
    decreases ids
  {
    var a := Ascending(ids);
    var k := Lookups(a, births);
    if ids != {} {
      var id := Min(ids);
      var s1 := AddTracker(s, id, births);
      var a1 := Ascending(ids - {id});
      assert a == [id] + a1 && a[1..] == a1;
      if id in births {
        AddAllMeaning(s1, ids - {id}, births);
        AddOneMore(s, id, a1, births);
        WithBornCons(s.trackers, id, a1[..k - 1], births);
        AddedEventsCons(s.events, id, Attempted(a1, births));
      } else {
        assert WithBorn(s.trackers, a[..0], births) == s.trackers;
        assert s.events + AddedEvents(a[..1]) == s1.events;
      }
    } else {
      assert WithBorn(s.trackers, a[..k], births) == s.trackers;
      assert s.events + AddedEvents(a) == s.events;
    }
  }

  ghost function Advanced(trackers: map<int, Life>, ids: set<int>, c: Cycle): map<int, Life> {
    map id | id in trackers :: if id in ids then Advance(trackers[id], SampleOf(c, id)) else trackers[id]
  }

  lemma AdvancedStep(m: map<int, Life>, id: int, ids: set<int>, c: Cycle)
    requires id in m && id in ids
    ensures var m1 := m[id := Advance(m[id], SampleOf(c, id))];
      Advanced(m1, ids - {id}, c) == Advanced(m, ids, c)
  {
  }

  lemma EntriesStep(m: map<int, Life>, id: int, rest: seq<int>, l: Life, c: Cycle)
    requires id in m && id !in rest && forall i :: 0 <= i < |rest| ==> rest[i] in m
    ensures Entries(m, [id] + rest, c) == [Updated(m[id].cur, SampleOf(c, id)).1] + Entries(m[id := l], rest, c)
  {
  }

  lemma {:induction false} UpdateAllMeaning(s: MonState, ids: set<int>, c: Cycle, entries: seq<DomainStats>)
    requires ids <= s.trackers.Keys
    ensures UpdateAll(s, ids, c, entries)
         == (s.(trackers := Advanced(s.trackers, ids, c)), entries + Entries(s.trackers, Ascending(ids), c))
    decreases ids
  {
    var a := Ascending(ids);
    if ids != {} {
      var id := Min(ids);
      var life := Advance(s.trackers[id], SampleOf(c, id));
      var a1, out := Ascending(ids - {id}), Updated(s.trackers[id].cur, SampleOf(c, id)).1;
      UpdateAllMeaning(s.(trackers := s.trackers[id := life]), ids - {id}, c, entries + [out]);
      AdvancedStep(s.trackers, id, ids, c);
      EntriesStep(s.trackers, id, a1, life, c);
      assert entries + [out] + Entries(s.trackers[id := life], a1, c) == entries + Entries(s.trackers, a, c);
    } else {
      assert Advanced(s.trackers, ids, c) == s.trackers;
      assert entries + Entries(s.trackers, a, c) == entries;
    }
  }
}
