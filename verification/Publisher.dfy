/** The monitor's classes: src/ActiveDomainWatcher.hh, src/DomainStatPublisher.hh and the loop of
    src/basic_monitor.cc, proved against MonitorSpec. */
module Publisher {
  import opened MonitorRuns
  import opened MonitorSpec
  import opened OrderedSets
  import opened Stats
  import opened Trackers

  /** Successor of everything visited, as ++ on a std::set iterator. */
  method Smallest(s: set<int>) returns (m: int)
    requires s != {}
    ensures m == Min(s)
  {
    HasMin(s);
    m :| m in s && forall x | x in s :: m <= x;
  }

  class ActiveDomainWatcher {
    var active: set<int>

    constructor ()
      ensures active == {}
    {
      active := {};
    }

    /** The ids the hypervisor lists, as a set. */
    static method ListedSet(c: Cycle) returns (now: set<int>)
      ensures now == Snapshot(c)
      ensures forall id :: id in now <==> c.listing.Listed? && id in c.listing.ids
    {
      now := {};
      if c.listing.Listed? {
        var ids := c.listing.ids;
        for i := 0 to |ids|
          invariant now == set x | x in ids[..i]
        {
          assert ids[..i + 1] == ids[..i] + [ids[i]];
          now := now + {ids[i]};
        }
        assert ids[..|ids|] == ids;
      }
    }

    /** Diffs the hypervisor's domains against the remembered ones, calling the publisher's handlers. */
    method Poll(pub: LibvirtDomainStatPublisher, c: Cycle)
      requires pub.Valid() && !pub.halted && pub.watcher == this
      modifies this, pub, pub.created
      ensures pub.Valid() && old(pub.created) <= pub.created && fresh(pub.created - old(pub.created))
      ensures pub.model == PollStep(old(pub.model), c)
    {
      if c.listing.CountFailed? {
        pub.halted := true;
        pub.model := pub.model.(halted := true);
        return;
      }
      var now := ListedSet(c);
      Diff(pub, now, c.births);
    }

    method Diff(pub: LibvirtDomainStatPublisher, now: set<int>, births: map<int, Birth>)
      requires pub.Valid() && !pub.halted && pub.watcher == this
      modifies this, pub, pub.created
      ensures pub.Valid() && old(pub.created) <= pub.created && fresh(pub.created - old(pub.created))
      ensures pub.model == DiffStep(old(pub.model), now, births)
    {
      CallRemoved(pub, now);
      CallAdded(pub, now, births);
      if !pub.halted {
        active := now;
        pub.model := pub.model.(active := now);
      }
    }

    method CallRemoved(pub: LibvirtDomainStatPublisher, now: set<int>)
      requires pub.Valid() && !pub.halted && pub.watcher == this
      modifies pub, pub.created
      ensures pub.Valid() && !pub.halted && pub.created == old(pub.created)
      ensures pub.model == RemoveAll(old(pub.model), active - now)
    {
      var todo := active;
      while todo != {}
        invariant pub.Valid() && !pub.halted && pub.created == old(pub.created)
        invariant RemoveAll(pub.model, todo - now) == RemoveAll(old(pub.model), active - now)
        decreases todo
      {
        var id := Smallest(todo);
        if id !in now {
          MinOfSubset(todo, todo - now);
          assert todo - {id} - now == todo - now - {id};
          pub.RemoveStatTracker(id);
        } else {
          assert todo - {id} - now == todo - now;
        }
        todo := todo - {id};
      }
      assert todo - now == {};
    }

    method CallAdded(pub: LibvirtDomainStatPublisher, now: set<int>, births: map<int, Birth>)
      requires pub.Valid() && !pub.halted && pub.watcher == this
      modifies pub, pub.created
      ensures pub.Valid() && old(pub.created) <= pub.created && fresh(pub.created - old(pub.created))
      ensures pub.model == AddAll(old(pub.model), now - active, births)
    {
      var todo := now;
      while todo != {} && !pub.halted
        invariant pub.Valid() && old(pub.created) <= pub.created && fresh(pub.created - old(pub.created))
        invariant AddAll(pub.model, todo - active, births) == AddAll(old(pub.model), now - active, births)
        decreases todo
      {
        var id := Smallest(todo);
        if id !in active {
          MinOfSubset(todo, todo - active);
          assert todo - {id} - active == todo - active - {id};
          pub.AddStatTracker(id, births);
        } else {
          assert todo - {id} - active == todo - active;
        }
        todo := todo - {id};
      }
      assert todo == {} ==> todo - active == {};
    }
  }

  /** The map holds, under their own ids, trackers from those created, and all that are alive. */
  ghost predicate Owned(trackers: map<int, DomainStatTracker>, created: set<DomainStatTracker>)
    reads created
  {
    && (forall id | id in trackers :: trackers[id] in created && trackers[id].domainId == id)
    && (forall t | t in created && t.alive :: t.domainId in trackers && trackers[t.domainId] == t)
  }

  ghost predicate AllAlive(trackers: map<int, DomainStatTracker>, created: set<DomainStatTracker>)
    reads created
  {
    forall id | id in trackers && trackers[id] in created :: trackers[id].alive
  }

  /** The lives are those of the trackers. */
  ghost predicate Described(lives: map<int, Life>, trackers: map<int, DomainStatTracker>,
      created: set<DomainStatTracker>)
    reads created
  {
    && lives.Keys == trackers.Keys
    && forall id | id in trackers && trackers[id] in created ::
         lives[id] == Life(trackers[id].birth, trackers[id].View(), trackers[id].samples)
  }

  lemma AddTrackerFields(s: MonState, id: int, births: map<int, Birth>)
    ensures var s' := AddTracker(s, id, births);
      && s'.host == s.host && s'.active == s.active && s'.sent == s.sent && s'.halted == (s.halted || id !in births)
      && s'.trackers == if id in births
           then s.trackers[id := Newborn(id, births[id])] else s.trackers
  {
  }

  class LibvirtDomainStatPublisher {
    const hostname: string
    const watcher: ActiveDomainWatcher
    var trackers: map<int, DomainStatTracker>
    /** m_aggStats.domain_stats */
    var domainStats: seq<DomainStats>
    /** Everything handed to the PUB socket. */
    var sent: seq<Message>
    /** An exception is on its way out of main. */
    var halted: bool
    /** The abstract state, with the history of events and of freed trackers. */
    ghost var model: MonState
    /** Every tracker ever allocated by this publisher. */
    ghost var created: set<DomainStatTracker>

    /** The model describes the fields, and the map owns exactly the live trackers, each under its own id. */
    ghost predicate Valid()
      reads this, watcher, created
    {
      && model.host == hostname && model.active == watcher.active
      && model.sent == sent && model.halted == halted
      && Owned(trackers, created) && Described(model.trackers, trackers, created)
      && (!halted ==> AllAlive(trackers, created))
    }

    constructor (host: string)
      ensures Valid() && model == Init(host)
      ensures fresh(watcher) && created == {}
    {
      hostname := host;
      watcher := new ActiveDomainWatcher();
      trackers, domainStats, sent, halted := map[], [], [], false;
      model, created := Init(host), {};
    }

    method RemoveStatTracker(domId: int)
      requires Valid() && !halted
      modifies this, created
      ensures Valid() && !halted && created == old(created)
      ensures model == RemoveTracker(old(model), domId)
    {
      model := RemoveTracker(model, domId);
      if domId !in trackers {
        return;
      }
      var t := trackers[domId];
      sent := sent + [TermMessage(hostname, t.domainUuid)];
      t.Delete();
      trackers := trackers - {domId};
    }

    /** A tracker already there under the id is freed; its map entry is about to be overwritten. */
    method DeleteOld(domId: int)
      requires Valid() && !halted
      modifies created
      ensures Owned(trackers, created) && Described(model.trackers, trackers, created)
      ensures forall id | id in trackers :: trackers[id].alive <==> id != domId
    {
      if domId in trackers {
        trackers[domId].Delete();
      }
    }

    /** m_trackers[domID] = new DomainStatTracker(m_conn, domID) */
    method PutNew(domId: int, b: Birth)
      requires Owned(trackers, created) && Described(model.trackers, trackers, created)
      requires forall id | id in trackers :: trackers[id].alive <==> id != domId
      modifies `trackers, `created
      ensures Owned(trackers, created) && AllAlive(trackers, created)
      ensures Described(model.trackers[domId := Newborn(domId, b)], trackers, created)
      ensures old(created) <= created && fresh(created - old(created))
    {
      var t := new DomainStatTracker(domId, b);
      trackers := trackers[domId := t];
      created := created + {t};
    }

    method AddStatTracker(domId: int, births: map<int, Birth>)
      requires Valid() && !halted
      modifies this, created
      ensures Valid() && old(created) <= created && fresh(created - old(created))
      ensures model == AddTracker(old(model), domId, births)
    {
      DeleteOld(domId);
      if domId in births {
        PutNew(domId, births[domId]);
      } else {
        halted := true;
      }
      AddTrackerFields(model, domId, births);
      model := AddTracker(model, domId, births);
    }

    method UpdateTracker(id: int, s: Sample) returns (entry: DomainStats)
      requires Valid() && !halted && id in trackers
      modifies `model, created
      ensures Valid()
      ensures entry == Updated(old(model).trackers[id].cur, s).1
      ensures model == old(model).(trackers := old(model).trackers[id := Advance(old(model).trackers[id], s)])
    {
      entry := trackers[id].Update(s);
      model := model.(trackers := model.trackers[id := Advance(model.trackers[id], s)]);
    }

    /** One cycle: poll, then update every tracker in id order and send the batch. */
    method Update(c: Cycle)
      requires Valid() && !halted
      modifies this, watcher, created
      ensures Valid() && old(created) <= created && fresh(created - old(created))
      ensures model == CycleStep(old(model), c)
    {
      watcher.Poll(this, c);
      if !halted {
        PublishBatch(c);
      }
    }

    method PublishBatch(c: Cycle)
      requires Valid() && !halted
      modifies `domainStats, `sent, `model, created
      ensures Valid() && model == PublishStep(old(model), c)
    {
      CollectStats(c);
      sent := sent + [BatchMessage(hostname, c.clock, domainStats)];
      model := model.(sent := sent);
    }

    method CollectStats(c: Cycle)
      requires Valid() && !halted
      modifies `domainStats, `model, created
      ensures Valid() && (model, domainStats) == UpdateAll(old(model), old(model).trackers.Keys, c, [])
    {
      domainStats := [];
      var todo := trackers.Keys;
      ghost var goal := UpdateAll(model, todo, c, []);
      while todo != {}
        invariant todo <= trackers.Keys && Valid()
        invariant UpdateAll(model, todo, c, domainStats) == goal
        decreases todo
      {
        assert todo - {Min(todo)} < todo;
        todo := UpdateNext(todo, c);
      }
    }

    /** m_aggStats.domain_stats.push_back(it->second->update()) for the next tracker in id order. */
    method UpdateNext(todo: set<int>, c: Cycle) returns (rest: set<int>)
      requires Valid() && !halted && {} < todo <= trackers.Keys
      modifies `domainStats, `model, created
      ensures Valid() && rest == todo - {Min(todo)}
      ensures UpdateAll(model, rest, c, domainStats) == UpdateAll(old(model), todo, c, old(domainStats))
    {
      var id := Smallest(todo);
      var entry := UpdateTracker(id, SampleOf(c, id));
      domainStats := domainStats + [entry];
      rest := todo - {id};
    }

    /** The destructor: afterwards every tracker ever allocated has been freed, and Delete's
        precondition shows that none was freed twice. */
    method Destroy()
      requires Valid() && !halted
      modifies created
      ensures forall t | t in created :: !t.alive
    {
      var todo := trackers.Keys;
      while todo != {}
        invariant todo <= trackers.Keys
        invariant forall id | id in todo :: trackers[id].alive
        invariant forall t | t in created && t.alive :: t.domainId in todo && trackers[t.domainId] == t
        decreases todo
      {
        var id := Smallest(todo);
        trackers[id].Delete();
        todo := todo - {id};
      }
    }
  }

  lemma RunNext(host: string, cycles: seq<Cycle>, i: nat)
    requires i < |cycles|
    ensures Run(host, cycles[..i + 1]) == CycleStep(Run(host, cycles[..i]), cycles[i])
  {
    assert cycles[..i + 1][..i] == cycles[..i];
  }

  /** The loop of the monitor's main over the given cycles. */
  method Monitor(host: string, cycles: seq<Cycle>) returns (sent: seq<Message>, halted: bool)
    ensures sent == Run(host, cycles).sent
    ensures halted == Run(host, cycles).halted
  {
    var pub := new LibvirtDomainStatPublisher(host);
    var i := 0;
    while i < |cycles| && !pub.halted
      invariant 0 <= i <= |cycles|
      invariant pub.Valid() && fresh(pub) && fresh(pub.watcher) && fresh(pub.created)
      invariant pub.model == Run(host, cycles[..i])
    {
      RunNext(host, cycles, i);
      pub.Update(cycles[i]);
      i := i + 1;
    }
    if pub.halted {
      HaltedForever(host, cycles, i);
      return pub.sent, true;
    }
    assert cycles[..i] == cycles;
    sent, halted := pub.sent, false;
    pub.Destroy();
  }
}
