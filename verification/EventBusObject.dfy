/**
 The event bus as the object it is: dictionaries updated in place by its methods.
 Each method is proved to take exactly the steps of `BusModel`, so everything
 proved there about all runs holds of the object.
 */
module EventBusObject {
  import opened Options
  import opened Channels
  import opened Streams
  import opened BusRegistry
  import opened BusModel

  // The two halves of a subscription: its membership and, if need be, a reader.

  function WithMember(g: Registry, t: int): Registry {
    g.(subs := g.subs[t := Peers(g, t) + {g.next}], linger := g.linger - {t},
       lingerTasks := CancelLingers(g.lingerTasks, AsSet(Pop(g.linger, t))))
  }

  function WithReader(g: Registry, t: int): Registry {
    if t in g.readers then g.(next := g.next + 3)
    else g.(stops := g.stops[t := g.next + 1], readers := g.readers[t := g.next + 2],
            readerTasks := g.readerTasks[g.next + 2 := ReaderTask(t, g.next + 1, false)], next := g.next + 3)
  }

  lemma SubscribeInTwo(g: Registry, t: int)
    ensures WithReader(WithMember(g, t), t) == BusRegistry.Subscribe(g, t)
  {
    var m := WithMember(g, t);
    if t in g.readers { assert WithReader(m, t) == m.(next := g.next + 3); } else { assert t !in m.readers; }
  }

  class EventBus {
    const queueSize: int
    const maxlen: nat

    var closed: bool
    var subs: map<int, set<nat>>
    var readers: map<int, nat>
    var stops: map<int, nat>
    var linger: map<int, nat>

    // The tasks, signals and subscriptions the dictionaries name.
    var readerTasks: map<nat, ReaderTask>
    var lingerTasks: map<nat, LingerTask>
    var raised: set<nat>
    var doomed: Doomed
    var next: nat
    var table: map<nat, Sub>
    var feeds: map<nat, Feed>

    // Redis, as far as this process is concerned.
    var tenants: map<int, Tenant>

    ghost function Reg(): Registry
      reads this
    {
      Registry(closed, subs, readers, stops, linger, readerTasks, lingerTasks, raised, doomed, next)
    }

    ghost function State(): Bus
      reads this
    {
      Bus(Reg(), table, feeds, tenants)
    }

    ghost function Settings(): Config { Config(maxlen, queueSize) }

    constructor (maxlen: nat, queueSize: int)
      ensures State() == START
      ensures this.maxlen == maxlen && this.queueSize == queueSize
    {
      this.maxlen, this.queueSize := maxlen, queueSize;
      closed := false;
      subs, readers, stops, linger := map[], map[], map[], map[];
      readerTasks, lingerTasks, raised, doomed, next := map[], map[], {}, Doomed({}, {}), 0;
      table, feeds, tenants := map[], map[], map[];
    }

    method Subscribe(t: int, channels: set<string>) returns (sub: nat)
      requires t in linger ==> linger[t] in lingerTasks
      modifies this
      ensures State() == JoinStep(old(State()), t, channels)
      ensures sub == old(next) && Arrives(old(State()), State(), t, channels, sub)
    {
      ghost var before := State();
      sub := Enroll(t, channels);
      JoinArrives(before, t, channels);
    }

    method Enroll(t: int, channels: set<string>) returns (sub: nat)
      requires t in linger ==> linger[t] in lingerTasks
      modifies this
      ensures State() == JoinStep(old(State()), t, channels) && sub == old(next)
    {
      sub := next;
      var fanned := if t in tenants then |tenants[t].fanned| else 0;
      table := table[sub := Sub(t, channels, [], false, [], fanned, None)];
      if t !in readers {
        feeds := feeds[sub + 2 := Feed(None, Idle, fanned)];
      }
      Register(t);
    }

    /** The lock section of `subscribe`. */
    method Register(t: int)
      requires t in linger ==> linger[t] in lingerTasks
      modifies `subs, `linger, `lingerTasks, `stops, `readers, `readerTasks, `next
      ensures Reg() == BusRegistry.Subscribe(old(Reg()), t)
    {
      ghost var g := Reg();
      AddMember(t);
      StartMissing(t);
      SubscribeInTwo(g, t);
    }

    method AddMember(t: int)
      requires t in linger ==> linger[t] in lingerTasks
      modifies `subs, `linger, `lingerTasks
      ensures Reg() == WithMember(old(Reg()), t)
    {
      if t !in subs { subs := subs[t := {}]; }
      subs := subs[t := subs[t] + {next}];
      CancelLinger(t);
    }

    method StartMissing(t: int)
      modifies `stops, `readers, `readerTasks, `next
      ensures Reg() == WithReader(old(Reg()), t)
    {
      if t !in readers {
        stops := stops[t := next + 1];
        readers := readers[t := next + 2];
        readerTasks := readerTasks[next + 2 := ReaderTask(t, next + 1, false)];
      }
      next := next + 3;
    }

    method CancelLinger(t: int)
      requires t in linger ==> linger[t] in lingerTasks
      modifies `linger, `lingerTasks
      ensures linger == old(linger) - {t}
      ensures lingerTasks == CancelLingers(old(lingerTasks), AsSet(Pop(old(linger), t)))
    {
      if t in linger {
        lingerTasks := lingerTasks[linger[t] := lingerTasks[linger[t]].(cancelled := true)];
        linger := linger - {t};
      }
      assert linger == old(linger) - {t};
    }

    method Unsubscribe(sub: nat)
      requires sub in table
      modifies this
      ensures State() == LeaveStep(old(State()), sub) && Departs(old(State()), State(), sub)
    {
      LeaveDeparts(State(), sub);
      var t := table[sub].tenant;
      if t in subs && sub in subs[t] {
        var fanned := if t in tenants then |tenants[t].fanned| else 0;
        table := table[sub := table[sub].(left := Some(fanned))];
      }
      Discard(t, sub);
    }

    /** The lock section of `unsubscribe`. */
    method Discard(t: int, sub: nat)
      modifies `subs, `linger, `lingerTasks, `next
      ensures Reg() == BusRegistry.Unsubscribe(old(Reg()), t, sub)
    {
      if t !in subs { return; }
      subs := subs[t := subs[t] - {sub}];
      if subs[t] != {} || closed { return; }
      subs := subs - {t};
      linger := linger[t := next];
      lingerTasks := lingerTasks[next := LingerTask(t, false, Sleeping)];
      next := next + 1;
      assert subs == old(subs) - {t};
    }

    /** `_stop_after_linger`, from the moment the sleep ends: the lock section, and
        then, unless somebody came back, the signal and the cancellation. */
    method StopAfterLinger(l: nat)
      requires CanWake(Reg(), l)
      requires lingerTasks[l].tenant in readers ==> readers[lingerTasks[l].tenant] in readerTasks
      modifies this
      ensures var b := RegisteredStep(old(State()), DoWake(l));
              State() == if CanStop(b.reg, l) then RegisteredStep(b, DoStopReader(l)) else b
      ensures Stops(old(Reg()), Reg(), old(lingerTasks)[l].tenant)
    {
      ghost var g := Reg();
      WakeUp(l);
      WakeStops(g, l);
    }

    method WakeUp(l: nat)
      requires CanWake(Reg(), l)
      requires lingerTasks[l].tenant in readers ==> readers[lingerTasks[l].tenant] in readerTasks
      modifies this
      ensures var b := RegisteredStep(old(State()), DoWake(l));
              State() == if CanStop(b.reg, l) then RegisteredStep(b, DoStopReader(l)) else b
    {
      PopReader(lingerTasks[l].tenant, l);
      if lingerTasks[l].stage.Stopping? {
        StopPopped(l);
      }
    }

    method PopReader(t: int, l: nat)
      requires CanWake(Reg(), l) && t == lingerTasks[l].tenant
      modifies `linger, `readers, `stops, `lingerTasks
      ensures Reg() == Wake(old(Reg()), l)
    {
      linger := linger - {t};
      if t in subs && subs[t] != {} {
        lingerTasks := lingerTasks[l := lingerTasks[l].(stage := Finished)];
        return;
      }
      var reader := if t in readers then Some(readers[t]) else None;
      var stop := if t in stops then Some(stops[t]) else None;
      readers, stops := readers - {t}, stops - {t};
      lingerTasks := lingerTasks[l := lingerTasks[l].(stage := Stopping(reader, stop))];
    }

    method StopPopped(l: nat)
      requires CanStop(Reg(), l)
      requires lingerTasks[l].stage.reader.Some? ==> lingerTasks[l].stage.reader.value in readerTasks
      modifies `raised, `readerTasks, `lingerTasks
      ensures Reg() == StopReader(old(Reg()), l)
    {
      var stage := lingerTasks[l].stage;
      if stage.stop.Some? { raised := raised + {stage.stop.value}; }
      if stage.reader.Some? {
        readerTasks := readerTasks[stage.reader.value := readerTasks[stage.reader.value].(cancelled := true)];
      }
      lingerTasks := lingerTasks[l := lingerTasks[l].(stage := Finished)];
      assert raised == old(raised) + AsSet(stage.stop);
      assert readerTasks == Cancel(old(readerTasks), AsSet(stage.reader));
    }

    /** One subscriber at a time: skip, queue, or mark as dropped. */
    method Fanout(t: int, event: Event)
      requires Peers(Reg(), t) <= table.Keys
      modifies this`table
      ensures table == FanOut(old(table), Peers(Reg(), t), [event], queueSize)
      ensures AllFed(old(table), table, Peers(Reg(), t), [event], queueSize)
    {
      FanOutFeeds(table, Peers(Reg(), t), [event], queueSize);
      var todo := if t in subs then subs[t] else {};
      ghost var peers, before := todo, table;
      forall s | s in table ensures OfferAll(table[s], [event], queueSize) == Offer(table[s], event, queueSize) {
        assert OfferAll(table[s], [event][..0], queueSize) == table[s];
      }
      while todo != {}
        invariant todo <= peers
        invariant table ==
                    map s | s in before :: if s in peers - todo then Offer(before[s], event, queueSize) else before[s]
      {
        var s :| s in todo;
        OfferOne(s, event);
        todo := todo - {s};
      }
    }

    method OfferOne(s: nat, event: Event)
      requires s in table
      modifies this`table
      ensures table == old(table)[s := Offer(old(table)[s], event, queueSize)]
    {
      if table[s].dropped || !Wants(table[s].channels, event.channels) {
        return;
      }
      if Full(table[s].queue, queueSize) {
        table := table[s := table[s].(dropped := true)];
      } else {
        table := table[s := table[s].(queue := table[s].queue + [event])];
      }
    }

    /** The body of the read loop after a reply: each entry moves the cursor and
        is fanned out before the next one. */
    method Reply(r: nat)
      requires CanDeliver(State(), r)
      requires Peers(Reg(), readerTasks[r].tenant) <= table.Keys
      modifies this
      ensures State() == DeliverStep(old(State()), Settings(), r)
      ensures AllFed(old(table), table, Peers(Reg(), readerTasks[r].tenant), Parsed(old(feeds)[r].phase.batch),
                     queueSize)
    {
      ghost var before := State();
      HandleBatch(r);
      FanOutFeeds(before.table, Peers(before.reg, before.reg.readerTasks[r].tenant),
                  Parsed(before.feeds[r].phase.batch), queueSize);
    }

    method HandleBatch(r: nat)
      requires CanDeliver(State(), r)
      requires Peers(Reg(), readerTasks[r].tenant) <= table.Keys
      modifies this
      ensures State() == DeliverStep(old(State()), Settings(), r)
    {
      var t := readerTasks[r].tenant;
      var at, batch := feeds[r].phase.at, feeds[r].phase.batch;
      FanoutAll(t, batch);
      var n := if t in tenants then tenants[t] else Tenant(EMPTY, []);
      tenants := tenants[t := n.(fanned := n.fanned + Upto(at, |batch|))];
      feeds := feeds[r := feeds[r].(phase := Idle,
                                    cursor := if batch == [] then feeds[r].cursor else Some(batch[|batch| - 1].id))];
    }

    method FanoutAll(t: int, batch: seq<Entry>)
      requires Peers(Reg(), t) <= table.Keys
      modifies `table
      ensures table == FanOut(old(table), Peers(Reg(), t), Parsed(batch), queueSize)
    {
      ghost var peers, before := Peers(Reg(), t), table;
      var i := 0;
      assert table == FanOut(before, peers, Parsed(batch[..0]), queueSize);
      while i < |batch|
        invariant 0 <= i <= |batch| && Peers(Reg(), t) == peers <= table.Keys
        invariant table == FanOut(before, peers, Parsed(batch[..i]), queueSize)
      {
        Fanout(t, ParseEntry(batch[i]));
        FanOutOneMore(before, peers, batch[..i], batch[i], queueSize);
        assert batch[..i] + [batch[i]] == batch[..i + 1];
        i := i + 1;
      }
      assert batch[..i] == batch;
    }

    /** `aclose`: mark, empty the dictionaries under the lock, then cancel. */
    method Aclose()
      modifies this
      ensures State()
              == RegisteredStep(RegisteredStep(RegisteredStep(old(State()), DoMarkClosed), DoClear), DoCancelAll)
      ensures Closes(old(Reg()), Reg())
    {
      ClosingCloses(Reg());
      closed := true;
      TakeOut();
      CancelDoomed();
    }

    method TakeOut()
      requires closed
      modifies this
      ensures State() == RegisteredStep(old(State()), DoClear)
    {
      Empty();
      MarkLeft();
    }

    /** Record that every subscription is gone. */
    method MarkLeft()
      modifies `table
      ensures table == LeaveAll(old(State()))
    {
      table := map s | s in table ::
        if table[s].left.None?
        then table[s].(left := Some(if table[s].tenant in tenants then |tenants[table[s].tenant].fanned| else 0))
        else table[s];
    }

    /** The lock section of `aclose`. */
    method Empty()
      requires closed
      modifies `raised, `doomed, `readers, `stops, `linger, `subs
      ensures Reg() == Clear(old(Reg()))
    {
      Raise(Range(stops));
      doomed := Doomed(doomed.readers + Range(readers), doomed.lingers + Range(linger));
      readers, stops, linger, subs := map[], map[], map[], map[];
    }

    method Raise(signals: set<nat>)
      modifies `raised
      ensures raised == old(raised) + signals
    {
      var todo := signals;
      while todo != {}
        invariant todo <= signals
        invariant raised == old(raised) + (signals - todo)
      {
        var s :| s in todo;
        raised, todo := raised + {s}, todo - {s};
      }
    }

    method CancelDoomed()
      modifies `readerTasks, `lingerTasks, `doomed
      ensures Reg() == CancelAll(old(Reg()))
    {
      CancelReaders(doomed.readers);
      CancelSleepers(doomed.lingers);
      doomed := Doomed({}, {});
    }

    method CancelReaders(which: set<nat>)
      modifies `readerTasks
      ensures readerTasks == Cancel(old(readerTasks), which)
    {
      var todo := which;
      while todo != {}
        invariant todo <= which
        invariant readerTasks == Cancel(old(readerTasks), which - todo)
      {
        var r :| r in todo;
        if r in readerTasks { readerTasks := readerTasks[r := readerTasks[r].(cancelled := true)]; }
        todo := todo - {r};
      }
      assert which - {} == which;
    }

    method CancelSleepers(which: set<nat>)
      modifies `lingerTasks
      ensures lingerTasks == CancelLingers(old(lingerTasks), which)
    {
      var todo := which;
      while todo != {}
        invariant todo <= which
        invariant lingerTasks == CancelLingers(old(lingerTasks), which - todo)
      {
        var l :| l in todo;
        if l in lingerTasks { lingerTasks := lingerTasks[l := lingerTasks[l].(cancelled := true)]; }
        todo := todo - {l};
      }
      assert which - {} == which;
    }
  }

  lemma FanOutOneMore(table: map<nat, Sub>, peers: set<nat>, entries: seq<Entry>, entry: Entry, queueSize: int)
    ensures FanOut(FanOut(table, peers, Parsed(entries), queueSize), peers, [ParseEntry(entry)], queueSize)
            == FanOut(table, peers, Parsed(entries + [entry]), queueSize)
  {
    var events, event := Parsed(entries), ParseEntry(entry);
    assert Parsed(entries + [entry]) == events + [event];
    forall s | s in table
      ensures OfferAll(OfferAll(table[s], events, queueSize), [event], queueSize)
              == OfferAll(table[s], events + [event], queueSize)
    {
      var sub := OfferAll(table[s], events, queueSize);
      assert (events + [event])[..|events|] == events;
      assert OfferAll(sub, [event][..0], queueSize) == sub;
    }
  }
}
