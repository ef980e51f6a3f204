/** What stops a relay and what does not: losses, crashes, filters, and payloads it cannot decode. */
module RelayProgress {
  import opened MessageFrames
  import opened MonitorSpec
  import opened Pipeline
  import opened Receivers
  import opened RelayTree
  import opened Sequences
  import opened Stats
  import opened WriterStream

  function ApplyAll(t: Topology, s: Net, steps: seq<Step>): Net
    decreases |steps|
  {
    if steps == [] then s else ApplyAll(t, Apply(t, s, steps[0]), steps[1..])
  }

  // ---------- losses ----------

  lemma DropAt(t: Topology, s: Net, k: nat, kept: seq<Packet>, lost: Packet, rest: seq<Packet>)
    requires At(s.chan, k) == kept + [lost] + rest
    ensures At(Apply(t, s, Drop(k, |kept|)).chan, k) == kept + rest
    ensures Apply(t, s, Drop(k, |kept|)).(chan := s.chan) == s
  {
    assert (kept + [lost] + rest)[..|kept|] == kept && (kept + [lost] + rest)[|kept| + 1..] == rest;
  }

  /** The channel may lose any messages: whatever subsequence of its contents, dropping the others leaves it and
      touches nothing else. So what RelayedInOrder allows can happen. */
  lemma {:induction false} DropsReach(t: Topology, s: Net, k: nat, kept: seq<Packet>, some: seq<Packet>,
      rest: seq<Packet>)
    returns (drops: seq<Step>)
    requires At(s.chan, k) == kept + rest && Subseq(some, rest)
    ensures At(ApplyAll(t, s, drops).chan, k) == kept + some
    ensures ApplyAll(t, s, drops).(chan := s.chan) == s
    decreases |rest|
  {
    if rest == [] {
      drops := [];
    } else if some != [] && some[0] == rest[0] && Subseq(some[1..], rest[1..]) {
      assert kept + rest == kept + [rest[0]] + rest[1..] && kept + some == kept + [some[0]] + some[1..];
      drops := DropsReach(t, s, k, kept + [rest[0]], some[1..], rest[1..]);
    } else {
      assert kept + rest == kept + [rest[0]] + rest[1..];
      DropAt(t, s, k, kept, rest[0], rest[1..]);
      var s' := Apply(t, s, Drop(k, |kept|));
      var more := DropsReach(t, s', k, kept, some, rest[1..]);
      drops := [Drop(k, |kept|)] + more;
      assert drops[1..] == more;
    }
  }

  // ---------- crashes ----------

  lemma HaltedStays(t: Topology, s: Net, step: Step, n: nat)
    requires t.Valid() && n !in t.monitors && PhaseOf(s, n) == Halted
    ensures var s' := Apply(t, s, step);
      PhaseOf(s', n) == Halted && At(s'.sent, n) == At(s.sent, n) && At(s'.rcv, n) == At(s.rcv, n)
  {
  }

  /** A relay that has gone down neither receives nor sends anything again. */
  lemma {:induction false} CrashStops(t: Topology, before: seq<Step>, n: nat, after: seq<Step>)
    requires t.Valid() && n !in t.monitors
    ensures var s, s' := Exec(t, before), Exec(t, before + [Crash(n)] + after);
      PhaseOf(s', n) == Halted && At(s'.sent, n) == At(s.sent, n) && At(s'.rcv, n) == At(s.rcv, n)
    decreases |after|
  {
    var all := before + [Crash(n)] + after;
    if after == [] {
      assert all[..|all| - 1] == before && all[|all| - 1] == Crash(n);
    } else {
      var most := after[..|after| - 1];
      CrashStops(t, before, n, most);
      assert all[..|all| - 1] == before + [Crash(n)] + most;
      HaltedStays(t, Exec(t, before + [Crash(n)] + most), after[|after| - 1], n);
    }
  }

  // ---------- filters ----------

  /** What the receivers' two filters let through. */
  predicate PassesFilters(p: Packet) {
    "monitor.servers." <= p.msg.key || "monitor.term_instance" <= p.msg.key
  }

  predicate AllPass(ps: seq<Packet>) {
    forall i :: 0 <= i < |ps| ==> PassesFilters(ps[i])
  }

  ghost predicate Filtered(s: Net) {
    forall n :: AllPass(At(s.chan, n)) && AllPass(At(s.rcv, n)) && AllPass(Held(s, n))
  }

  lemma ArrivedPasses(p: Packet)
    requires PassesFilters(p)
    ensures PassesFilters(Arrived(p))
  {
    SubscribedKept(p.msg.key);
  }

  lemma ChanFiltered(t: Topology, s: Net, step: Step, n: nat)
    requires AllPass(At(s.chan, n)) && AllPass(Held(s, n))
    ensures AllPass(At(Apply(t, s, step).chan, n))
  {
  }

  lemma NodeFiltered(t: Topology, s: Net, step: Step, n: nat)
    requires AllPass(At(s.rcv, n)) && AllPass(Held(s, n))
    requires step.Receive? ==> AllPass(At(s.chan, step.n))
    ensures AllPass(At(Apply(t, s, step).rcv, n)) && AllPass(Held(Apply(t, s, step), n))
  {
    if step.Receive? && Receivable(t, s, step.n) {
      ArrivedPasses(At(s.chan, step.n)[0]);
    }
  }

  lemma StepFiltered(t: Topology, s: Net, step: Step)
    requires Filtered(s)
    ensures Filtered(Apply(t, s, step))
  {
    var s' := Apply(t, s, step);
    forall n ensures AllPass(At(s'.chan, n)) && AllPass(At(s'.rcv, n)) && AllPass(Held(s', n)) {
      ChanFiltered(t, s, step, n);
      NodeFiltered(t, s, step, n);
    }
  }

  /** Nothing under another topic ever gets onto a channel or to a node. */
  lemma {:induction false} OnlyTopics(t: Topology, steps: seq<Step>)
    ensures Filtered(Exec(t, steps))
  {
    if steps != [] {
      OnlyTopics(t, steps[..|steps| - 1]);
      StepFiltered(t, Exec(t, steps[..|steps| - 1]), steps[|steps| - 1]);
    }
  }

  // ---------- payloads ----------

  lemma GoodConverts(m: Message)
    requires GoodMessage(m)
    ensures Converts(m) && Decodable(m) && MessageFrames.Received(m) == m
  {
    ReceivedKey(m);
  }

  /** A decoding relay forwards everything a monitor's run sends, unchanged. */
  lemma RunForwarded(host: string, cycles: seq<Cycle>, decodes: bool)
    requires WhisperLines.GoodHost(host) && GoodCycles(cycles)
    ensures Forwarded(Run(host, cycles).sent, decodes) == Run(host, cycles).sent
  {
    RunSendsGood(host, cycles);
    GoodForwarded(Run(host, cycles).sent, decodes);
  }

  lemma GoodForwarded(sent: seq<Message>, decodes: bool)
    requires AllGood(sent)
    ensures Forwarded(sent, decodes) == sent
  {
    ForwardedPrefix(sent, decodes);
    forall i | 0 <= i < |sent| ensures Converts(sent[i]) && MessageFrames.Received(sent[i]) == sent[i] {
      GoodConverts(sent[i]);
    }
  }

  /** What a relay has sent on and has yet to decode. */
  function Decoding(s: Net, n: nat): seq<Packet> {
    if PhaseOf(s, n).Relayed? then [PhaseOf(s, n).p] else []
  }

  ghost predicate NoneHalted(fleet: map<nat, Config>, s: Net) {
    forall n :: PhaseOf(s, n) != Halted && AllGenuine(fleet, Decoding(s, n))
  }

  lemma StepHaltsNot(t: Topology, fleet: map<nat, Config>, s: Net, step: Step, n: nat)
    requires PhaseOf(s, n) != Halted && !step.Crash?
    requires AllGenuine(fleet, Decoding(s, n)) && AllGenuine(fleet, Held(s, n))
    ensures PhaseOf(Apply(t, s, step), n) != Halted && AllGenuine(fleet, Decoding(Apply(t, s, step), n))
  {
    if PhaseOf(s, n).Relayed? {
      assert Genuine(fleet, Decoding(s, n)[0]);
      GoodConverts(PhaseOf(s, n).p.msg);
    }
    if PhaseOf(s, n).Holding? {
      assert Genuine(fleet, Held(s, n)[0]);
    }
  }

  lemma StepHaltsNone(t: Topology, fleet: map<nat, Config>, s: Net, step: Step)
    requires GenuineNet(fleet, s) && NoneHalted(fleet, s) && !step.Crash?
    ensures NoneHalted(fleet, Apply(t, s, step))
  {
    var s' := Apply(t, s, step);
    forall n ensures PhaseOf(s', n) != Halted && AllGenuine(fleet, Decoding(s', n)) {
      StepHaltsNot(t, fleet, s, step, n);
    }
  }

  lemma {:induction false} ExecHaltsNone(t: Topology, steps: seq<Step>, fleet: map<nat, Config>)
    requires PublishedGood(t, steps, fleet) && forall i :: 0 <= i < |steps| ==> !steps[i].Crash?
    ensures NoneHalted(fleet, Exec(t, steps))
    decreases |steps|
  {
    if steps != [] {
      var before := steps[..|steps| - 1];
      PublishedShorter(t, steps, fleet);
      ExecHaltsNone(t, before, fleet);
      ExecGenuine(t, before, fleet);
      StepHaltsNone(t, fleet, Exec(t, before), steps[|steps| - 1]);
    }
  }

  /** In a deployed network no relay ever halts unless it is brought down: every message that reaches it decodes. */
  lemma NeverHalted(t: Topology, steps: seq<Step>, fleet: map<nat, Config>, n: nat)
    requires Deployed(t, steps, fleet) && forall i :: 0 <= i < |steps| ==> !steps[i].Crash?
    ensures PhaseOf(Exec(t, steps), n) != Halted
  {
    DeployedGood(t, steps, fleet);
    ExecHaltsNone(t, steps, fleet);
  }

  /** So an idle relay that takes turns until its child's channel is empty sends on all of it, in order. */
  lemma RelayDrains(t: Topology, steps: seq<Step>, fleet: map<nat, Config>, k: nat)
    requires Deployed(t, steps, fleet) && k in t.next && PhaseOf(Exec(t, steps), t.next[k]) == Idle
    ensures var s, up := Exec(t, steps), t.next[k];
      Contents(At(Turns(t, s, k, |At(s.chan, k)|).sent, up)) == Contents(At(s.sent, up)) + Contents(At(s.chan, k))
  {
    var s := Exec(t, steps);
    DeployedGood(t, steps, fleet);
    ExecGenuine(t, steps, fleet);
    assert AllGenuine(fleet, At(s.chan, k));
    ContentsGood(fleet, At(s.chan, k));
    GoodForwarded(Contents(At(s.chan, k)), t.next[k] in t.decoding);
    LoopIsSteps(t, s, k, |At(s.chan, k)|);
    assert At(s.chan, k)[..|At(s.chan, k)|] == At(s.chan, k);
  }
}
