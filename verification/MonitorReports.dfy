/** When a domain is reported and when its termination is announced. */
module MonitorReports {
  import opened MonitorEvents
  import opened MonitorRuns
  import opened MonitorSpec
  import opened OrderedSets
  import opened Stats

  /** m is a batch with an entry for the UUID. */
  ghost predicate Names(m: Message, uuid: string) {
    m.data.Batch? && exists i :: 0 <= i < |m.data.agg.domains| && m.data.agg.domains[i].uuid == uuid
  }

  ghost predicate Carried(trackers: map<int, Life>, uuid: string) {
    exists id | id in trackers :: trackers[id].cur.uuid == uuid
  }

  lemma EntriesUuids(m: map<int, Life>, ids: seq<int>, c: Cycle)
    requires forall i :: 0 <= i < |ids| ==> ids[i] in m
    ensures forall i :: 0 <= i < |ids| ==> Entries(m, ids, c)[i].uuid == Advanced(m, m.Keys, c)[ids[i]].cur.uuid
  {
  }

  lemma ReportedTrackers(s: MonState, c: Cycle)
    requires Coupled(s) && !s.halted && AllFound(s, c)
    ensures var a, t := Ascending(Snapshot(c)), Advanced(Polled(s, c), Polled(s, c).Keys, c);
      && |Reported(s, c)| == |a| && t.Keys == Snapshot(c)
      && forall i :: 0 <= i < |a| ==> Reported(s, c)[i].uuid == t[a[i]].cur.uuid
  {
    PolledKeys(s, c);
    EntriesUuids(Polled(s, c), Ascending(Snapshot(c)), c);
  }

  lemma CarriedAt(ids: set<int>, t: map<int, Life>, uuid: string)
    requires t.Keys == ids
    ensures var a := Ascending(ids);
      Carried(t, uuid) <==> exists i :: 0 <= i < |a| && t[a[i]].cur.uuid == uuid
  {
    AscendingOrder(ids);
    var a := Ascending(ids);
    if Carried(t, uuid) {
      var id :| id in t && t[id].cur.uuid == uuid;
      assert id in a;
      var i :| 0 <= i < |a| && a[i] == id;
      assert t[a[i]].cur.uuid == uuid;
    }
  }

  /** A cycle's batch names a UUID exactly when a domain listed in that cycle carries it. */
  lemma ReportedNames(s: MonState, c: Cycle, uuid: string)
    requires Coupled(s) && !s.halted && !c.listing.CountFailed? && AllFound(s, c)
    ensures Names(BatchMessage(s.host, c.clock, Reported(s, c)), uuid) <==> Carried(CycleResult(s, c).trackers, uuid)
    ensures CycleResult(s, c).trackers.Keys == Snapshot(c)
  {
    ReportedTrackers(s, c);
    CarriedAt(Snapshot(c), Advanced(Polled(s, c), Polled(s, c).Keys, c), uuid);
  }

  // ---------- no notice without a report ----------

  /** The newest message is the batch describing the trackers; before the first cycle there is neither. */
  ghost predicate LastBatchCurrent(s: MonState) {
    if s.sent == [] then s.trackers == map[]
    else forall uuid :: Names(s.sent[|s.sent| - 1], uuid) <==> Carried(s.trackers, uuid)
  }

  lemma {:induction false} StoryLastBatch(host: string, cycles: seq<Cycle>)
    requires !Story(host, cycles).halted
    ensures LastBatchCurrent(Story(host, cycles))
    decreases |cycles|
  {
    if cycles != [] {
      var s, c := Story(host, Most(cycles)), Last(cycles);
      forall uuid
        ensures Names(BatchMessage(s.host, c.clock, Reported(s, c)), uuid)
          <==> Carried(CycleResult(s, c).trackers, uuid)
      {
        ReportedNames(s, c, uuid);
      }
    }
  }

  /** Before the notice at position i, the most recent batch names its UUID. */
  ghost predicate Announced(host: string, sent: seq<Message>, i: nat)
    requires i < |sent|
  {
    exists j, uuid :: 0 <= j < i && sent[i] == TermMessage(host, uuid) && Names(sent[j], uuid)
      && NoticesOnly(sent[j + 1..i])
  }

  ghost predicate NoticesOnly(messages: seq<Message>) {
    forall k :: 0 <= k < |messages| ==> messages[k].key == TERM_KEY
  }

  lemma NotifiedAnnounced(s: MonState, c: Cycle, rest: seq<Message>, i: nat)
    requires Coupled(s) && !s.halted && LastBatchCurrent(s)
    requires |s.sent| <= i < |s.sent| + |Notified(s, c)|
    ensures Announced(s.host, s.sent + Notified(s, c) + rest, i)
  {
    var all, n := s.sent + Notified(s, c) + rest, |s.sent|;
    var id := Ascending(Gone(s, c))[i - n];
    var uuid := s.trackers[id].cur.uuid;
    assert Carried(s.trackers, uuid);
    assert n > 0 && Names(all[n - 1], uuid);
    assert all[n - 1 + 1..i] == Notified(s, c)[..i - n];
    assert all[i] == TermMessage(s.host, uuid);
  }

  lemma AnnouncedMore(host: string, sent: seq<Message>, rest: seq<Message>, i: nat)
    requires i < |sent| && Announced(host, sent, i)
    ensures Announced(host, sent + rest, i)
  {
    var j, uuid :| 0 <= j < i && sent[i] == TermMessage(host, uuid) && Names(sent[j], uuid)
      && NoticesOnly(sent[j + 1..i]);
    assert (sent + rest)[j + 1..i] == sent[j + 1..i];
    assert Names((sent + rest)[j], uuid);
  }

  lemma NewAnnounced(s: MonState, c: Cycle, i: nat)
    requires Coupled(s) && !s.halted && LastBatchCurrent(s)
    requires |s.sent| <= i < |CycleResult(s, c).sent| && CycleResult(s, c).sent[i].key == TERM_KEY
    ensures Announced(s.host, CycleResult(s, c).sent, i)
  {
    BatchIsNoNotice(s.host, c, Reported(s, c));
    var rest := if AllFound(s, c) then [BatchMessage(s.host, c.clock, Reported(s, c))] else [];
    assert s.sent + Notified(s, c) + rest == CycleResult(s, c).sent;
    NotifiedAnnounced(s, c, rest, i);
  }

  lemma SentGrows(s: MonState, c: Cycle)
    requires Coupled(s)
    ensures s.sent <= CycleResult(s, c).sent
  {
  }

  lemma {:induction false} StoryAnnounced(host: string, cycles: seq<Cycle>, i: nat)
    requires i < |Story(host, cycles).sent| && Story(host, cycles).sent[i].key == TERM_KEY
    ensures Announced(host, Story(host, cycles).sent, i)
    decreases |cycles|
  {
    if cycles != [] {
      var s, c := Story(host, Most(cycles)), Last(cycles);
      SentGrows(s, c);
      if i < |s.sent| {
        StoryAnnounced(host, Most(cycles), i);
        var sent := CycleResult(s, c).sent;
        assert sent == s.sent + sent[|s.sent|..];
        AnnouncedMore(host, s.sent, sent[|s.sent|..], i);
      } else {
        StoryLastBatch(host, Most(cycles));
        NewAnnounced(s, c, i);
      }
    }
  }

  /** Every termination notice of a run comes after a batch naming its UUID, with only other notices
      in between: so after the previous cycle's batch and before the same cycle's. */
  lemma NoticeFollowsReport(host: string, cycles: seq<Cycle>, i: nat)
    requires i < |Run(host, cycles).sent| && Run(host, cycles).sent[i].key == TERM_KEY
    ensures Announced(host, Run(host, cycles).sent, i)
  {
    RunIsStory(host, cycles);
    StoryAnnounced(host, cycles, i);
  }

  // ---------- no report after termination ----------

  /** From some point on nothing names the UUID. */
  ghost predicate QuietFrom(sent: seq<Message>, n: nat, uuid: string) {
    forall i :: n <= i < |sent| ==> !Names(sent[i], uuid)
  }

  /** In this cycle no listed domain is looked up to have the UUID. */
  ghost predicate NotFound(c: Cycle, uuid: string) {
    forall id | id in c.births && id in Snapshot(c) :: c.births[id].uuid != uuid
  }

  lemma PolledCarried(s: MonState, c: Cycle, uuid: string)
    requires Coupled(s) && !Carried(s.trackers, uuid) && NotFound(c, uuid)
    ensures !Carried(Polled(s, c), uuid) && !Carried(Advanced(Polled(s, c), Polled(s, c).Keys, c), uuid)
  {
    var p := Polled(s, c);
    assert forall id | id in Found(s, c) :: id in Come(s, c);
    forall id | id in p ensures p[id].cur.uuid != uuid {
      PolledUuid(s, c, id);
    }
  }

  lemma QuietMore(sent: seq<Message>, notices: seq<Message>, batches: seq<Message>, uuid: string)
    requires forall i :: 0 <= i < |notices| ==> notices[i].data.Notice?
    requires forall i :: 0 <= i < |batches| ==> !Names(batches[i], uuid)
    ensures QuietFrom(sent + notices + batches, |sent|, uuid)
  {
  }

  /** A cycle after which no tracker carries a UUID sends no batch naming it. */
  lemma SentQuiet(s: MonState, c: Cycle, uuid: string)
    requires Coupled(s) && !Carried(CycleResult(s, c).trackers, uuid)
    ensures s.sent <= CycleResult(s, c).sent && QuietFrom(CycleResult(s, c).sent, |s.sent|, uuid)
  {
    if !s.halted && !c.listing.CountFailed? {
      if AllFound(s, c) {
        ReportedNames(s, c, uuid);
        QuietMore(s.sent, Notified(s, c), [BatchMessage(s.host, c.clock, Reported(s, c))], uuid);
      } else {
        QuietMore(s.sent, Notified(s, c), [], uuid);
        assert s.sent + Notified(s, c) + [] == s.sent + Notified(s, c);
      }
    }
  }

  lemma CycleQuiet(s: MonState, c: Cycle, uuid: string)
    requires Coupled(s) && !Carried(s.trackers, uuid) && NotFound(c, uuid)
    ensures !Carried(CycleResult(s, c).trackers, uuid)
    ensures s.sent <= CycleResult(s, c).sent && QuietFrom(CycleResult(s, c).sent, |s.sent|, uuid)
  {
    PolledCarried(s, c, uuid);
    SentQuiet(s, c, uuid);
  }

  lemma QuietLonger(a: seq<Message>, b: seq<Message>, c: seq<Message>, uuid: string)
    requires a <= b <= c && QuietFrom(b, |a|, uuid) && QuietFrom(c, |b|, uuid)
    ensures a <= c && QuietFrom(c, |a|, uuid)
  {
  }

  lemma {:induction false} StoryQuiet(host: string, before: seq<Cycle>, after: seq<Cycle>, uuid: string)
    requires !Carried(Story(host, before).trackers, uuid)
    requires forall i :: 0 <= i < |after| ==> NotFound(after[i], uuid)
    ensures !Carried(Story(host, before + after).trackers, uuid)
    ensures Story(host, before).sent <= Story(host, before + after).sent
    ensures QuietFrom(Story(host, before + after).sent, |Story(host, before).sent|, uuid)
    decreases |after|
  {
    if after == [] {
      assert before + after == before;
    } else {
      var all := before + after;
      StoryQuiet(host, before, Most(after), uuid);
      assert Most(all) == before + Most(after) && Last(all) == Last(after);
      CycleQuiet(Story(host, Most(all)), Last(all), uuid);
      QuietLonger(Story(host, before).sent, Story(host, Most(all)).sent, Story(host, all).sent, uuid);
    }
  }

  /** Once no monitored domain carries a UUID and none is found again, no later batch names it. */
  lemma NoLaterReport(host: string, before: seq<Cycle>, after: seq<Cycle>, uuid: string)
    requires !Carried(Run(host, before).trackers, uuid)
    requires forall i :: 0 <= i < |after| ==> NotFound(after[i], uuid)
    ensures Run(host, before).sent <= Run(host, before + after).sent
    ensures QuietFrom(Run(host, before + after).sent, |Run(host, before).sent|, uuid)
  {
    RunIsStory(host, before);
    RunIsStory(host, before + after);
    StoryQuiet(host, before, after, uuid);
  }
}
