/** The network of monitors, relays and the writer: every node sends to one parent over a channel that
    may lose whole messages, and any interleaving of their steps may happen. */
module RelayTree {
  import opened MessageFrames
  import opened Receivers
  import opened Sequences
  import opened Stats
  import opened Text

  /** next is the endpoint a node connects to; depth decreases along it, so there are no cycles. */
  datatype Topology = Topology(next: map<nat, nat>, depth: map<nat, nat>, monitors: set<nat>, decoding: set<nat>) {
    function Depth(n: nat): nat { if n in depth then depth[n] else 0 }

    ghost predicate Valid() {
      forall n | n in next :: Depth(next[n]) < Depth(n) && next[n] !in monitors
    }
  }

  /** A message tagged with the monitor that published it; the tag is for stating properties only. */
  datatype Packet = Packet(origin: nat, msg: Message)

  /** Where a relay's loop stands. */
  datatype Phase = Idle | Holding(p: Packet) | Relayed(p: Packet) | Halted

  /** sent: what each node handed to its socket; chan: what is on its way to its parent; rcv: what it received. */
  datatype Net = Net(sent: map<nat, seq<Packet>>, chan: map<nat, seq<Packet>>, rcv: map<nat, seq<Packet>>,
      phase: map<nat, Phase>)

  datatype Step =
    | Publish(n: nat, msg: Message)
    | Drop(n: nat, i: nat)
    | Receive(n: nat)
    | Forward(n: nat)
    | Decode(n: nat)
    | Crash(n: nat)

  function At(logs: map<nat, seq<Packet>>, n: nat): seq<Packet> {
    if n in logs then logs[n] else []
  }

  function PhaseOf(s: Net, n: nat): Phase {
    if n in s.phase then s.phase[n] else Idle
  }

  /** The prefixes every receiver subscribes to. */
  predicate Subscribed(key: string) {
    SERVERS_PREFIX <= key || TERM_KEY <= key
  }

  const Start: Net := Net(map[], map[], map[], map[])

  function Send(t: Topology, s: Net, n: nat, p: Packet): Net {
    s.(sent := s.sent[n := At(s.sent, n) + [p]],
       chan := if n in t.next && Subscribed(p.msg.key) then s.chan[n := At(s.chan, n) + [p]] else s.chan)
  }

  function RemoveAt(ps: seq<Packet>, i: nat): seq<Packet>
    requires i < |ps|
  {
    ps[..i] + ps[i + 1..]
  }

  function Arrived(p: Packet): Packet { Packet(p.origin, MessageFrames.Received(p.msg)) }

  /** The effect of a step; a step that is not enabled does nothing. Crash covers interrupts and failed receives. */
  function Apply(t: Topology, s: Net, step: Step): Net {
    match step
    case Publish(n, msg) => if n in t.monitors then Send(t, s, n, Packet(n, msg)) else s
    case Drop(n, i) =>
      if i < |At(s.chan, n)| then s.(chan := s.chan[n := RemoveAt(At(s.chan, n), i)]) else s
    case Receive(n) =>
      if n in t.next && PhaseOf(s, t.next[n]) == Idle && At(s.chan, n) != [] then
        var up, p := t.next[n], Arrived(At(s.chan, n)[0]);
        s.(chan := s.chan[n := At(s.chan, n)[1..]],
           rcv := s.rcv[up := At(s.rcv, up) + [p]],
           phase := s.phase[up := Holding(p)])
      else s
    case Forward(n) =>
      if PhaseOf(s, n).Holding?
      then Send(t, s, n, PhaseOf(s, n).p).(phase := s.phase[n := Relayed(PhaseOf(s, n).p)])
      else s
    case Decode(n) =>
      if PhaseOf(s, n).Relayed?
      then s.(phase := s.phase[n := if n in t.decoding && !Decodable(PhaseOf(s, n).p.msg) then Halted else Idle])
      else s
    case Crash(n) => if n in t.monitors then s else s.(phase := s.phase[n := Halted])
  }

  function Exec(t: Topology, steps: seq<Step>): Net {
    if steps == [] then Start else Apply(t, Exec(t, steps[..|steps| - 1]), steps[|steps| - 1])
  }

  // ---------- routes ----------

  /** n is m or an ancestor of it. */
  ghost predicate OnRoute(t: Topology, m: nat, n: nat)
    requires t.Valid()
    decreases t.Depth(m)
  {
    m == n || (m in t.next && OnRoute(t, t.next[m], n))
  }

  lemma {:induction false} RouteStep(t: Topology, m: nat, n: nat)
    requires t.Valid() && OnRoute(t, m, n) && n in t.next
    ensures OnRoute(t, m, t.next[n])
    decreases t.Depth(m)
  {
    if m == n {
      assert OnRoute(t, t.next[n], t.next[n]);
    } else {
      RouteStep(t, t.next[m], n);
    }
  }

  lemma {:induction false} RouteDepth(t: Topology, m: nat, n: nat)
    requires t.Valid() && OnRoute(t, m, n)
    ensures t.Depth(n) <= t.Depth(m)
    decreases t.Depth(m)
  {
    if m != n {
      RouteDepth(t, t.next[m], n);
    }
  }

  /** A route enters each node through one child only. */
  lemma {:induction false} OneChild(t: Topology, m: nat, a: nat, b: nat)
    requires t.Valid() && OnRoute(t, m, a) && OnRoute(t, m, b)
    requires a in t.next && b in t.next && t.next[a] == t.next[b]
    ensures a == b
    decreases t.Depth(m)
  {
    if m != a && m != b {
      OneChild(t, t.next[m], a, b);
    } else if m == a && m != b {
      RouteDepth(t, t.next[m], b);
    } else if m != a && m == b {
      RouteDepth(t, t.next[m], a);
    }
  }

  // ---------- what a log holds of one monitor ----------

  function Own(m: nat, p: Packet): seq<Message> {
    if p.origin == m && Subscribed(p.msg.key) then [MessageFrames.Received(p.msg)] else []
  }

  /** The messages of monitor m in a log, as a receiver reads them. */
  function From(m: nat, ps: seq<Packet>): seq<Message> {
    if ps == [] then [] else From(m, ps[..|ps| - 1]) + Own(m, ps[|ps| - 1])
  }

  lemma {:induction false} FromConcat(m: nat, a: seq<Packet>, b: seq<Packet>)
    ensures From(m, a + b) == From(m, a) + From(m, b)
    decreases |b|
  {
    if b == [] {
      assert a + b == a;
    } else {
      var most, last := b[..|b| - 1], b[|b| - 1];
      FromConcat(m, a, most);
      MostConcat(a, b);
      Assoc(From(m, a), From(m, most), Own(m, last));
    }
  }

  lemma FromOne(m: nat, p: Packet)
    ensures From(m, [p]) == Own(m, p)
  {
    assert [p][..0] == [];
  }

  lemma FromAppend(m: nat, a: seq<Packet>, p: Packet)
    ensures From(m, a + [p]) == From(m, a) + Own(m, p)
  {
    assert (a + [p])[..|a|] == a;
  }

  lemma FromHead(m: nat, ps: seq<Packet>)
    requires ps != []
    ensures From(m, ps) == Own(m, ps[0]) + From(m, ps[1..])
  {
    FromConcat(m, [ps[0]], ps[1..]);
    FromOne(m, ps[0]);
    assert [ps[0]] + ps[1..] == ps;
  }

  lemma {:induction false} FromForeign(m: nat, ps: seq<Packet>)
    requires forall i :: 0 <= i < |ps| ==> ps[i].origin != m
    ensures From(m, ps) == []
    decreases |ps|
  {
    if ps != [] {
      FromForeign(m, ps[..|ps| - 1]);
    }
  }

  /** Reading a key as a C string does not change what it is subscribed under. */
  lemma ArrivedOwn(m: nat, p: Packet)
    ensures Own(m, Arrived(p)) == Own(m, p)
  {
    ReceivedKey(p.msg);
    SubscribedKept(p.msg.key);
  }

  lemma SubscribedKept(key: string)
    ensures Subscribed(key) <==> Subscribed(CStr(key))
  {
    NoNul();
    KeptPrefix(key, SERVERS_PREFIX);
    KeptPrefix(key, TERM_KEY);
  }

  lemma NoNul()
    ensures '\0' !in SERVERS_PREFIX && '\0' !in TERM_KEY
  {
  }

  lemma {:induction false} KeptPrefix(key: string, prefix: string)
    requires '\0' !in prefix
    ensures prefix <= key <==> prefix <= CStr(key)
  {
    if prefix != "" && key != "" && key[0] == prefix[0] {
      KeptPrefix(key[1..], prefix[1..]);
      assert prefix <= key <==> prefix[1..] <= key[1..];
      assert prefix <= CStr(key) <==> prefix[1..] <= CStr(key)[1..];
    }
  }

  lemma FromRemoved(m: nat, ps: seq<Packet>, i: nat)
    requires i < |ps|
    ensures Subseq(From(m, RemoveAt(ps, i)), From(m, ps))
  {
    var x, y := ps[..i], ps[i + 1..];
    assert ps == x + ([ps[i]] + y);
    FromConcat(m, x, y);
    FromConcat(m, [ps[i]], y);
    FromConcat(m, x, [ps[i]] + y);
    Reflexive(From(m, x));
    Reflexive(From(m, y));
    Sequences.Concat([], From(m, [ps[i]]), From(m, y), From(m, y));
    assert [] + From(m, y) == From(m, y);
    Sequences.Concat(From(m, x), From(m, x), From(m, y), From(m, [ps[i]]) + From(m, y));
  }

  // ---------- what every step keeps ----------

  /** Up an edge, what the parent received of a monitor followed by what is in flight is drawn in order
      from what the child sent; without loss it is all of it. */
  ghost predicate EdgeKept(lossless: bool, s: Net, n: nat, up: nat, m: nat) {
    Kept(lossless, From(m, At(s.rcv, up)) + From(m, At(s.chan, n)), From(m, At(s.sent, n)))
  }

  ghost predicate Kept(lossless: bool, seen: seq<Message>, all: seq<Message>) {
    if lossless then seen == all else Subseq(seen, all)
  }

  ghost predicate EdgesKept(lossless: bool, t: Topology, s: Net)
    requires t.Valid()
  {
    forall n, m | n in t.next && OnRoute(t, m, n) :: EdgeKept(lossless, s, n, t.next[n], m)
  }

  ghost predicate OnRoutes(t: Topology, ps: seq<Packet>, n: nat)
    requires t.Valid()
  {
    forall i :: 0 <= i < |ps| ==> OnRoute(t, ps[i].origin, n)
  }

  /** Packets are only found on the route of their origin. */
  ghost predicate RoutesKept(t: Topology, s: Net)
    requires t.Valid()
  {
    forall n :: OnRoutes(t, At(s.sent, n), n) && OnRoutes(t, At(s.chan, n), n) && OnRoutes(t, At(s.rcv, n), n)
  }

  /** What a relay has received and not yet sent on. */
  function Held(s: Net, n: nat): seq<Packet> {
    if PhaseOf(s, n).Holding? then [PhaseOf(s, n).p] else []
  }

  /** A relay's output is its input, less the message it is holding; a halted one may have lost that message. */
  ghost predicate NodeKept(lossless: bool, t: Topology, s: Net, n: nat) {
    if n in t.monitors then At(s.rcv, n) == [] && PhaseOf(s, n) == Idle
    else if PhaseOf(s, n).Halted? && !lossless then At(s.sent, n) <= At(s.rcv, n)
    else At(s.rcv, n) == At(s.sent, n) + Held(s, n)
  }

  ghost predicate Inv(lossless: bool, t: Topology, s: Net) {
    && t.Valid() && EdgesKept(lossless, t, s) && RoutesKept(t, s)
    && forall n :: NodeKept(lossless, t, s, n)
  }

  /** A step that loses a message: a drop, or a relay going down between receiving and sending. */
  predicate Loses(step: Step) { step.Drop? || step.Crash? }

  lemma KeptMore(lossless: bool, r: seq<Message>, c: seq<Message>, all: seq<Message>, o: seq<Message>)
    requires Kept(lossless, r + c, all)
    ensures Kept(lossless, r + (c + o), all + o)
  {
    Assoc(r, c, o);
    if !lossless {
      Reflexive(o);
      Sequences.Concat(r + c, all, o, o);
    }
  }

  lemma SendEdge(lossless: bool, t: Topology, s: Net, k: nat, p: Packet, n: nat, m: nat)
    requires t.Valid() && n in t.next && EdgeKept(lossless, s, n, t.next[n], m)
    ensures EdgeKept(lossless, Send(t, s, k, p), n, t.next[n], m)
  {
    if n == k {
      var sent, chan := At(s.sent, n), At(s.chan, n);
      FromAppend(m, sent, p);
      FromAppend(m, chan, p);
      if Subscribed(p.msg.key) {
        KeptMore(lossless, From(m, At(s.rcv, t.next[n])), From(m, chan), From(m, sent), Own(m, p));
      } else {
        assert From(m, sent) + [] == From(m, sent);
      }
    }
  }

  lemma SendRoutes(t: Topology, s: Net, k: nat, p: Packet)
    requires t.Valid() && RoutesKept(t, s) && OnRoute(t, p.origin, k)
    ensures RoutesKept(t, Send(t, s, k, p))
  {
    var s' := Send(t, s, k, p);
    forall n
      ensures OnRoutes(t, At(s'.sent, n), n) && OnRoutes(t, At(s'.chan, n), n) && OnRoutes(t, At(s'.rcv, n), n)
    {
      assert OnRoutes(t, At(s.sent, n), n) && OnRoutes(t, At(s.chan, n), n) && OnRoutes(t, At(s.rcv, n), n);
    }
  }

  lemma SendInv(lossless: bool, t: Topology, s: Net, k: nat, p: Packet)
    requires t.Valid() && EdgesKept(lossless, t, s) && RoutesKept(t, s) && OnRoute(t, p.origin, k)
    ensures EdgesKept(lossless, t, Send(t, s, k, p)) && RoutesKept(t, Send(t, s, k, p))
  {
    SendRoutes(t, s, k, p);
    forall n, m | n in t.next && OnRoute(t, m, n) ensures EdgeKept(lossless, Send(t, s, k, p), n, t.next[n], m) {
      assert EdgeKept(lossless, s, n, t.next[n], m);
      SendEdge(lossless, t, s, k, p, n, m);
    }
  }

  lemma DropEdge(t: Topology, s: Net, k: nat, i: nat, n: nat, m: nat)
    requires t.Valid() && n in t.next && EdgeKept(false, s, n, t.next[n], m)
    ensures EdgeKept(false, Apply(t, s, Drop(k, i)), n, t.next[n], m)
  {
    if n == k && i < |At(s.chan, k)| {
      var r := From(m, At(s.rcv, t.next[n]));
      FromRemoved(m, At(s.chan, k), i);
      Reflexive(r);
      Sequences.Concat(r, r, From(m, RemoveAt(At(s.chan, k), i)), From(m, At(s.chan, k)));
      Transitive(r + From(m, RemoveAt(At(s.chan, k), i)), r + From(m, At(s.chan, k)), From(m, At(s.sent, n)));
    }
  }

  lemma DropInv(t: Topology, s: Net, k: nat, i: nat)
    requires Inv(false, t, s)
    ensures Inv(false, t, Apply(t, s, Drop(k, i)))
  {
    var s' := Apply(t, s, Drop(k, i));
    forall n, m | n in t.next && OnRoute(t, m, n) ensures EdgeKept(false, s', n, t.next[n], m) {
      DropEdge(t, s, k, i, n, m);
    }
    forall n ensures NodeKept(false, t, s', n) {
      assert NodeKept(false, t, s, n);
    }
  }

  predicate Receivable(t: Topology, s: Net, k: nat) {
    k in t.next && PhaseOf(s, t.next[k]) == Idle && At(s.chan, k) != []
  }

  lemma HandedOver(m: nat, r: seq<Packet>, c: seq<Packet>)
    requires c != []
    ensures From(m, r + [Arrived(c[0])]) + From(m, c[1..]) == From(m, r) + From(m, c)
  {
    FromAppend(m, r, Arrived(c[0]));
    ArrivedOwn(m, c[0]);
    FromHead(m, c);
    Assoc(From(m, r), Own(m, c[0]), From(m, c[1..]));
  }

  lemma ReceiveLogs(t: Topology, s: Net, k: nat, n: nat)
    requires Receivable(t, s, k)
    ensures var s' := Apply(t, s, Receive(k));
      && At(s'.sent, n) == At(s.sent, n)
      && At(s'.chan, n) == (if n == k then At(s.chan, k)[1..] else At(s.chan, n))
      && At(s'.rcv, n) == if n == t.next[k] then At(s.rcv, n) + [Arrived(At(s.chan, k)[0])] else At(s.rcv, n)
  {
  }

  lemma ReceiveOwnEdge(lossless: bool, t: Topology, s: Net, k: nat, m: nat)
    requires Receivable(t, s, k) && EdgeKept(lossless, s, k, t.next[k], m)
    ensures EdgeKept(lossless, Apply(t, s, Receive(k)), k, t.next[k], m)
  {
    HandedOver(m, At(s.rcv, t.next[k]), At(s.chan, k));
    ReceiveLogs(t, s, k, k);
    ReceiveLogs(t, s, k, t.next[k]);
  }

  lemma ForeignArrival(m: nat, r: seq<Packet>, p: Packet)
    requires p.origin != m
    ensures From(m, r + [Arrived(p)]) == From(m, r)
  {
    FromAppend(m, r, Arrived(p));
    assert From(m, r) + [] == From(m, r);
  }

  /** What arrives through one child is not from a monitor whose route enters through another. */
  lemma ForeignOrigin(t: Topology, s: Net, k: nat, n: nat, m: nat)
    requires t.Valid() && RoutesKept(t, s) && Receivable(t, s, k) && n != k
    requires n in t.next && OnRoute(t, m, n) && t.next[n] == t.next[k]
    ensures At(s.chan, k)[0].origin != m
  {
    assert OnRoutes(t, At(s.chan, k), k);
    if At(s.chan, k)[0].origin == m {
      OneChild(t, m, n, k);
    }
  }

  lemma ReceiveOtherEdge(lossless: bool, t: Topology, s: Net, k: nat, n: nat, m: nat)
    requires t.Valid() && RoutesKept(t, s) && Receivable(t, s, k) && n != k
    requires n in t.next && OnRoute(t, m, n) && EdgeKept(lossless, s, n, t.next[n], m)
    ensures EdgeKept(lossless, Apply(t, s, Receive(k)), n, t.next[n], m)
  {
    ReceiveLogs(t, s, k, n);
    ReceiveLogs(t, s, k, t.next[n]);
    if t.next[n] == t.next[k] {
      ForeignOrigin(t, s, k, n, m);
      ForeignArrival(m, At(s.rcv, t.next[k]), At(s.chan, k)[0]);
    }
  }

  lemma ReceiveRoutes(t: Topology, s: Net, k: nat)
    requires t.Valid() && RoutesKept(t, s) && Receivable(t, s, k)
    ensures RoutesKept(t, Apply(t, s, Receive(k)))
  {
    var s' := Apply(t, s, Receive(k));
    assert OnRoutes(t, At(s.chan, k), k);
    RouteStep(t, At(s.chan, k)[0].origin, k);
    forall n
      ensures OnRoutes(t, At(s'.sent, n), n) && OnRoutes(t, At(s'.chan, n), n) && OnRoutes(t, At(s'.rcv, n), n)
    {
      assert OnRoutes(t, At(s.sent, n), n) && OnRoutes(t, At(s.chan, n), n) && OnRoutes(t, At(s.rcv, n), n);
    }
  }

  lemma ReceiveInv(lossless: bool, t: Topology, s: Net, k: nat)
    requires Inv(lossless, t, s) && Receivable(t, s, k)
    ensures Inv(lossless, t, Apply(t, s, Receive(k)))
  {
    var s' := Apply(t, s, Receive(k));
    ReceiveRoutes(t, s, k);
    forall n, m | n in t.next && OnRoute(t, m, n) ensures EdgeKept(lossless, s', n, t.next[n], m) {
      assert EdgeKept(lossless, s, n, t.next[n], m);
      if n == k { ReceiveOwnEdge(lossless, t, s, k, m); } else { ReceiveOtherEdge(lossless, t, s, k, n, m); }
    }
    forall n ensures NodeKept(lossless, t, s', n) {
      ReceiveNode(lossless, t, s, k, n);
    }
  }

  lemma ReceiveNode(lossless: bool, t: Topology, s: Net, k: nat, n: nat)
    requires t.Valid() && Receivable(t, s, k) && NodeKept(lossless, t, s, n)
    ensures NodeKept(lossless, t, Apply(t, s, Receive(k)), n)
  {
  }

  lemma PublishInv(lossless: bool, t: Topology, s: Net, k: nat, msg: Message)
    requires Inv(lossless, t, s)
    ensures Inv(lossless, t, Apply(t, s, Publish(k, msg)))
  {
    var s' := Apply(t, s, Publish(k, msg));
    SendInv(lossless, t, s, k, Packet(k, msg));
    forall n ensures NodeKept(lossless, t, s', n) {
      assert NodeKept(lossless, t, s, n);
    }
  }

  lemma ForwardLogs(t: Topology, s: Net, k: nat, n: nat)
    requires PhaseOf(s, k).Holding?
    ensures var s', s1 := Apply(t, s, Forward(k)), Send(t, s, k, PhaseOf(s, k).p);
      && At(s'.sent, n) == At(s1.sent, n) && At(s'.chan, n) == At(s1.chan, n) && At(s'.rcv, n) == At(s1.rcv, n)
      && At(s1.sent, n) == (if n == k then At(s.sent, k) + [PhaseOf(s, k).p] else At(s.sent, n))
      && At(s1.rcv, n) == At(s.rcv, n)
      && PhaseOf(s', n) == if n == k then Relayed(PhaseOf(s, k).p) else PhaseOf(s, n)
  {
  }

  lemma ForwardNode(lossless: bool, t: Topology, s: Net, k: nat, n: nat)
    requires PhaseOf(s, k).Holding? && NodeKept(lossless, t, s, n)
    ensures NodeKept(lossless, t, Apply(t, s, Forward(k)), n)
  {
    ForwardLogs(t, s, k, n);
  }

  lemma ForwardInv(lossless: bool, t: Topology, s: Net, k: nat)
    requires Inv(lossless, t, s) && PhaseOf(s, k).Holding?
    ensures Inv(lossless, t, Apply(t, s, Forward(k)))
  {
    var s', p := Apply(t, s, Forward(k)), PhaseOf(s, k).p;
    assert NodeKept(lossless, t, s, k);
    assert At(s.rcv, k)[|At(s.sent, k)|] == p;
    SendInv(lossless, t, s, k, p);
    forall n, m | n in t.next && OnRoute(t, m, n) ensures EdgeKept(lossless, s', n, t.next[n], m) {
      assert EdgeKept(lossless, Send(t, s, k, p), n, t.next[n], m);
    }
    forall n ensures NodeKept(lossless, t, s', n) {
      ForwardNode(lossless, t, s, k, n);
    }
  }

  lemma PhaseNode(lossless: bool, t: Topology, s: Net, step: Step, n: nat)
    requires NodeKept(lossless, t, s, n) && (step.Decode? || (step.Crash? && !lossless))
    ensures NodeKept(lossless, t, Apply(t, s, step), n)
  {
  }

  lemma PhaseInv(lossless: bool, t: Topology, s: Net, step: Step)
    requires Inv(lossless, t, s) && (step.Decode? || (step.Crash? && !lossless))
    ensures Inv(lossless, t, Apply(t, s, step))
  {
    var s' := Apply(t, s, step);
    forall n, m | n in t.next && OnRoute(t, m, n) ensures EdgeKept(lossless, s', n, t.next[n], m) {
      assert EdgeKept(lossless, s, n, t.next[n], m);
    }
    forall n ensures NodeKept(lossless, t, s', n) {
      PhaseNode(lossless, t, s, step, n);
    }
  }

  lemma StepInv(lossless: bool, t: Topology, s: Net, step: Step)
    requires Inv(lossless, t, s) && (lossless ==> !Loses(step))
    ensures Inv(lossless, t, Apply(t, s, step))
  {
    match step
    case Publish(n, msg) => PublishInv(lossless, t, s, n, msg);
    case Drop(n, i) => DropInv(t, s, n, i);
    case Receive(n) => if Receivable(t, s, n) { ReceiveInv(lossless, t, s, n); }
    case Forward(n) => if PhaseOf(s, n).Holding? { ForwardInv(lossless, t, s, n); }
    case Decode(_) => PhaseInv(lossless, t, s, step);
    case Crash(_) => PhaseInv(lossless, t, s, step);
  }

  ghost predicate NoLoss(steps: seq<Step>) {
    forall i :: 0 <= i < |steps| ==> !Loses(steps[i])
  }

  lemma {:induction false} ExecInv(lossless: bool, t: Topology, steps: seq<Step>)
    requires t.Valid() && (lossless ==> NoLoss(steps))
    ensures Inv(lossless, t, Exec(t, steps))
    decreases |steps|
  {
    if steps != [] {
      ExecInv(lossless, t, steps[..|steps| - 1]);
      StepInv(lossless, t, Exec(t, steps[..|steps| - 1]), steps[|steps| - 1]);
    }
  }

  // ---------- along whole routes ----------

  lemma FromPrefix(m: nat, a: seq<Packet>, b: seq<Packet>)
    requires a <= b
    ensures From(m, a) <= From(m, b)
  {
    FromConcat(m, a, b[|a|..]);
    assert a + b[|a|..] == b;
  }

  lemma {:induction false} AlongRoute(t: Topology, s: Net, m: nat, a: nat, n: nat)
    requires Inv(false, t, s) && OnRoute(t, m, a) && OnRoute(t, a, n) && a != n
    ensures Subseq(From(m, At(s.rcv, n)), From(m, At(s.sent, a)))
    decreases t.Depth(a)
  {
    var up := t.next[a];
    var r, c, o := From(m, At(s.rcv, up)), From(m, At(s.chan, a)), From(m, At(s.sent, a));
    assert EdgeKept(false, s, a, up, m);
    Prefix(r, r + c);
    Transitive(r, r + c, o);
    if up != n {
      RouteStep(t, m, a);
      AlongRoute(t, s, m, up, n);
      assert NodeKept(false, t, s, up);
      FromPrefix(m, At(s.sent, up), At(s.rcv, up));
      Prefix(From(m, At(s.sent, up)), r);
      Transitive(From(m, At(s.rcv, n)), From(m, At(s.sent, up)), r);
      Transitive(From(m, At(s.rcv, n)), r, o);
    }
  }

  /** The messages monitor m published during the given steps. */
  function Published(m: nat, steps: seq<Step>): seq<Message> {
    if steps == [] then []
    else
      var last := steps[|steps| - 1];
      Published(m, steps[..|steps| - 1]) + if last.Publish? && last.n == m then [last.msg] else []
  }

  /** Those a subscriber would accept, with keys as it reads them. */
  function Accepted(messages: seq<Message>): seq<Message> {
    if messages == [] then []
    else
      var last := messages[|messages| - 1];
      Accepted(messages[..|messages| - 1]) + if Subscribed(last.key) then [MessageFrames.Received(last)] else []
  }

  lemma {:induction false} AcceptedAll(messages: seq<Message>)
    requires forall i :: 0 <= i < |messages| ==> Subscribed(messages[i].key) && '\0' !in messages[i].key
    ensures Accepted(messages) == messages
    decreases |messages|
  {
    if messages != [] {
      var most, last := messages[..|messages| - 1], messages[|messages| - 1];
      assert forall i :: 0 <= i < |most| ==> most[i] == messages[i];
      AcceptedAll(most);
      ReceivedKey(last);
      assert most + [last] == messages;
    }
  }

  lemma MonitorSends(t: Topology, s: Net, step: Step, m: nat)
    requires t.Valid() && m in t.monitors && PhaseOf(s, m) == Idle
    ensures PhaseOf(Apply(t, s, step), m) == Idle
    ensures At(Apply(t, s, step).sent, m)
         == At(s.sent, m) + if step.Publish? && step.n == m then [Packet(m, step.msg)] else []
  {
  }

  lemma MonitorAppends(t: Topology, s: Net, step: Step, m: nat)
    requires t.Valid() && m in t.monitors && PhaseOf(s, m) == Idle
    ensures PhaseOf(Apply(t, s, step), m) == Idle
    ensures From(m, At(Apply(t, s, step).sent, m))
         == From(m, At(s.sent, m)) + if step.Publish? && step.n == m then Own(m, Packet(m, step.msg)) else []
  {
    MonitorSends(t, s, step, m);
    if step.Publish? && step.n == m {
      FromAppend(m, At(s.sent, m), Packet(m, step.msg));
    } else {
      assert At(s.sent, m) + [] == At(s.sent, m);
    }
  }

  lemma PublishedMore(m: nat, steps: seq<Step>)
    requires steps != []
    ensures var before, last := steps[..|steps| - 1], steps[|steps| - 1];
      Accepted(Published(m, steps)) == Accepted(Published(m, before))
        + if last.Publish? && last.n == m then Own(m, Packet(m, last.msg)) else []
  {
    var before, last := steps[..|steps| - 1], steps[|steps| - 1];
    if last.Publish? && last.n == m {
      assert Published(m, steps)[..|Published(m, before)|] == Published(m, before);
    } else {
      assert Published(m, steps) == Published(m, before);
    }
  }

  /** A monitor's outgoing log is what it published. */
  lemma {:induction false} SentIsPublished(t: Topology, steps: seq<Step>, m: nat)
    requires t.Valid() && m in t.monitors
    ensures From(m, At(Exec(t, steps).sent, m)) == Accepted(Published(m, steps))
    ensures PhaseOf(Exec(t, steps), m) == Idle
    decreases |steps|
  {
    if steps != [] {
      var before, last := steps[..|steps| - 1], steps[|steps| - 1];
      SentIsPublished(t, before, m);
      MonitorAppends(t, Exec(t, before), last, m);
      PublishedMore(m, steps);
    }
  }

  /** Over every tree, interleaving, loss and crash: what any other node has received from a monitor is a
      subsequence of what the monitor published. */
  lemma RelayedInOrder(t: Topology, steps: seq<Step>, m: nat, n: nat)
    requires t.Valid() && m in t.monitors && n != m
    ensures Subseq(From(m, At(Exec(t, steps).rcv, n)), Accepted(Published(m, steps)))
  {
    var s := Exec(t, steps);
    ExecInv(false, t, steps);
    SentIsPublished(t, steps, m);
    if OnRoute(t, m, n) {
      AlongRoute(t, s, m, m, n);
    } else {
      assert OnRoutes(t, At(s.rcv, n), n);
      FromForeign(m, At(s.rcv, n));
    }
  }

  /** Everything from monitor m between node a's socket and node n's log, oldest first. */
  ghost function InFlight(t: Topology, s: Net, m: nat, a: nat, n: nat): seq<Message>
    requires t.Valid() && OnRoute(t, a, n) && a != n
    decreases t.Depth(a)
  {
    var up := t.next[a];
    var chan := From(m, At(s.chan, a));
    if up == n then chan else InFlight(t, s, m, up, n) + (From(m, Held(s, up)) + chan)
  }

  lemma InFlightStep(t: Topology, s: Net, m: nat, a: nat, n: nat, got: seq<Message>)
    requires t.Valid() && OnRoute(t, a, n) && a != n && t.next[a] != n
    requires From(m, At(s.sent, t.next[a])) == got + InFlight(t, s, m, t.next[a], n)
    requires At(s.rcv, t.next[a]) == At(s.sent, t.next[a]) + Held(s, t.next[a])
    ensures From(m, At(s.rcv, t.next[a])) + From(m, At(s.chan, a)) == got + InFlight(t, s, m, a, n)
  {
    var up := t.next[a];
    FromConcat(m, At(s.sent, up), Held(s, up));
    var flying, held, chan := InFlight(t, s, m, up, n), From(m, Held(s, up)), From(m, At(s.chan, a));
    Assoc(got + flying, held, chan);
    Assoc(got, flying, held + chan);
  }

  lemma {:induction false} AccountedFor(t: Topology, s: Net, m: nat, a: nat, n: nat)
    requires Inv(true, t, s) && OnRoute(t, m, a) && OnRoute(t, a, n) && a != n
    ensures From(m, At(s.sent, a)) == From(m, At(s.rcv, n)) + InFlight(t, s, m, a, n)
    decreases t.Depth(a)
  {
    var up := t.next[a];
    assert EdgeKept(true, s, a, up, m);
    if up != n {
      RouteStep(t, m, a);
      AccountedFor(t, s, m, up, n);
      assert NodeKept(true, t, s, up);
      InFlightStep(t, s, m, a, n, From(m, At(s.rcv, n)));
    }
  }

  /** Without loss, delivered plus in flight is exactly what was published, even when relays halt on
      messages they cannot decode: they forward first. */
  lemma NothingLost(t: Topology, steps: seq<Step>, m: nat, n: nat)
    requires t.Valid() && m in t.monitors && n != m && OnRoute(t, m, n) && NoLoss(steps)
    ensures var s := Exec(t, steps);
      Accepted(Published(m, steps)) == From(m, At(s.rcv, n)) + InFlight(t, s, m, m, n)
  {
    ExecInv(true, t, steps);
    SentIsPublished(t, steps, m);
    AccountedFor(t, Exec(t, steps), m, m, n);
  }

  // ---------- a relay's loop as steps ----------

  /** The messages of a log, in order. */
  function Contents(ps: seq<Packet>): seq<Message> {
    seq(|ps|, i requires 0 <= i < |ps| => ps[i].msg)
  }

  /** One turn of the loop of node k's parent: receive from k, republish, decode. */
  function Turn(t: Topology, s: Net, k: nat): Net
    requires k in t.next
  {
    Apply(t, Apply(t, Apply(t, s, Step.Receive(k)), Forward(t.next[k])), Decode(t.next[k]))
  }

  function Turns(t: Topology, s: Net, k: nat, n: nat): Net
    requires k in t.next
    decreases n
  {
    if n == 0 then s else Turns(t, Turn(t, s, k), k, n - 1)
  }

  lemma TurnMeaning(t: Topology, s: Net, k: nat)
    requires t.Valid() && k in t.next && PhaseOf(s, t.next[k]) == Idle && At(s.chan, k) != []
    ensures var s', up, p := Turn(t, s, k), t.next[k], Arrived(At(s.chan, k)[0]);
      && At(s'.sent, up) == At(s.sent, up) + [p]
      && At(s'.chan, k) == At(s.chan, k)[1..]
      && PhaseOf(s', up) == if up in t.decoding && !Decodable(p.msg) then Halted else Idle
  {
  }

  lemma {:induction false} HaltedTurns(t: Topology, s: Net, k: nat, n: nat)
    requires k in t.next && PhaseOf(s, t.next[k]) == Halted
    ensures Turns(t, s, k, n) == s
    decreases n
  {
    if n > 0 {
      assert Turn(t, s, k) == s;
      HaltedTurns(t, s, k, n - 1);
    }
  }

  lemma ContentsAppend(ps: seq<Packet>, p: Packet)
    ensures Contents(ps + [p]) == Contents(ps) + [p.msg]
  {
  }

  lemma ForwardedHead(ps: seq<Packet>, n: nat, decodes: bool)
    requires 0 < n <= |ps|
    ensures var m := MessageFrames.Received(ps[0].msg);
      Forwarded(Contents(ps[..n]), decodes)
        == [m] + if decodes && !Decodable(m) then [] else Forwarded(Contents(ps[1..][..n - 1]), decodes)
  {
    assert Contents(ps[..n])[0] == ps[0].msg;
    assert Contents(ps[..n])[1..] == Contents(ps[1..][..n - 1]);
  }

  /** n turns have sent on what the receivers' loop forwards of the channel's first n messages. */
  predicate LoopDone(t: Topology, s: Net, k: nat, n: nat)
    requires k in t.next && n <= |At(s.chan, k)|
  {
    Contents(At(Turns(t, s, k, n).sent, t.next[k]))
      == Contents(At(s.sent, t.next[k])) + Forwarded(Contents(At(s.chan, k)[..n]), t.next[k] in t.decoding)
  }

  lemma TurnPhase(t: Topology, s: Net, k: nat)
    requires t.Valid() && k in t.next && PhaseOf(s, t.next[k]) == Idle && At(s.chan, k) != []
    ensures At(Turn(t, s, k).chan, k) == At(s.chan, k)[1..]
    ensures PhaseOf(Turn(t, s, k), t.next[k]) == Idle || PhaseOf(Turn(t, s, k), t.next[k]) == Halted
  {
    TurnMeaning(t, s, k);
  }

  /** A turn sends one message, and the later turns send what is left to send. */
  lemma TurnForwards(t: Topology, s: Net, k: nat, n: nat)
    requires t.Valid() && k in t.next && PhaseOf(s, t.next[k]) == Idle && 0 < n <= |At(s.chan, k)|
    requires At(Turn(t, s, k).chan, k) == At(s.chan, k)[1..]
    requires PhaseOf(Turn(t, s, k), t.next[k]) == Idle ==> LoopDone(t, Turn(t, s, k), k, n - 1)
    ensures LoopDone(t, s, k, n)
  {
    var up, c, s' := t.next[k], At(s.chan, k), Turn(t, s, k);
    TurnMeaning(t, s, k);
    ContentsAppend(At(s.sent, up), Arrived(c[0]));
    ForwardedHead(c, n, up in t.decoding);
    if PhaseOf(s', up) == Halted {
      HaltedTurns(t, s', k, n - 1);
    } else {
      Assoc(Contents(At(s.sent, up)), [Arrived(c[0]).msg], Forwarded(Contents(c[1..][..n - 1]), up in t.decoding));
    }
  }

  /** Taking turns over a channel's first n messages sends on exactly what the receivers' loop does: the
      loop refines the steps. */
  lemma {:induction false} LoopIsSteps(t: Topology, s: Net, k: nat, n: nat)
    requires t.Valid() && k in t.next && PhaseOf(s, t.next[k]) == Idle && n <= |At(s.chan, k)|
    ensures LoopDone(t, s, k, n)
    decreases n
  {
    if n > 0 {
      TurnPhase(t, s, k);
      if PhaseOf(Turn(t, s, k), t.next[k]) == Idle {
        LoopIsSteps(t, Turn(t, s, k), k, n - 1);
      }
      TurnForwards(t, s, k, n);
    }
  }
}
