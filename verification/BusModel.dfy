/**
 The whole bus of one process: the registry, the queues of its subscribers, the
 readers' positions, and the streams other processes write to. Every step that
 asyncio or Redis can take is an action; any interleaving is a run.

 `consumed`, `joined`, `left`, `fanned` and `base` only record history: no step
 looks at them to decide anything.
 */
module BusModel {
  import opened Options
  import opened StreamIds
  import opened Channels
  import opened Streams
  import opened BusRegistry

  /** `COUNT` of the reader's XREAD. */
  const BATCH := 200

  datatype Config = Config(maxlen: nat, queueSize: int)

  /** A subscription. It joined after `joined` events had been fanned out for its
      tenant and, once gone, missed everything from `left` on. */
  datatype Sub = Sub(
    tenant: int, channels: set<string>, queue: seq<Event>, dropped: bool,
    consumed: seq<Event>, joined: nat, left: Option<nat>)

  datatype Phase = Idle | Blocked(after: Id) | Replied(at: nat, batch: seq<Entry>)

  /** A reader's `last_id` ("$" is `None`) and where its XREAD is. The first event
      it fanned out is number `base` of its tenant. */
  datatype Feed = Feed(cursor: Option<Id>, phase: Phase, base: nat)

  /** A tenant's stream, and the positions fanned out from it in this process. */
  datatype Tenant = Tenant(stream: Stream, fanned: seq<nat>)

  datatype Bus = Bus(
    reg: Registry, table: map<nat, Sub>, feeds: map<nat, Feed>, tenants: map<int, Tenant>)

  const START := Bus(INITIAL, map[], map[], map[])

  function TenantOf(b: Bus, t: int): Tenant {
    if t in b.tenants then b.tenants[t] else Tenant(EMPTY, [])
  }

  predicate PositionsIn(n: Tenant) {
    forall i | 0 <= i < |n.fanned| :: n.fanned[i] < |n.stream.log|
  }

  /** The events fanned out for a tenant, in order. */
  function Fanned(n: Tenant): (events: seq<Event>)
    requires PositionsIn(n)
    ensures |events| == |n.fanned|
  {
    seq(|n.fanned|, i requires 0 <= i < |n.fanned| => ParseEntry(n.stream.log[n.fanned[i]]))
  }

  // ------------------------------------------------------- queues (`_fanout`)

  predicate Full(queue: seq<Event>, queueSize: int) {
    queueSize > 0 && |queue| >= queueSize
  }

  /** What one event does to one subscriber. */
  function Offer(s: Sub, event: Event, queueSize: int): Sub {
    if s.dropped || !Wants(s.channels, event.channels) then s
    else if Full(s.queue, queueSize) then s.(dropped := true)
    else s.(queue := s.queue + [event])
  }

  function OfferAll(s: Sub, events: seq<Event>, queueSize: int): Sub {
    if events == [] then s
    else Offer(OfferAll(s, events[..|events| - 1], queueSize), events[|events| - 1], queueSize)
  }

  function FanOut(table: map<nat, Sub>, peers: set<nat>, events: seq<Event>, queueSize: int): map<nat, Sub> {
    map s | s in table :: if s in peers then OfferAll(table[s], events, queueSize) else table[s]
  }

  /** What a subscriber got, delivered or waiting in its queue. */
  function Received(s: Sub): seq<Event> { s.consumed + s.queue }

  /** The promise: exactly the wanted events of the window, and after a drop a
      proper prefix of them. */
  predicate Exact(s: Sub, window: seq<Event>) {
    if s.dropped then Received(s) < Wanted(window, s.channels)
    else Received(s) == Wanted(window, s.channels)
  }

  lemma OfferKeepsExact(s: Sub, window: seq<Event>, event: Event, queueSize: int)
    requires Exact(s, window)
    ensures Exact(Offer(s, event, queueSize), window + [event])
  {
    WantedConcat(window, [event], s.channels);
    assert Wanted([event], s.channels) == if Wants(s.channels, event.channels) then [event] else [];
    assert s.consumed + (s.queue + [event]) == Received(s) + [event];
  }

  lemma {:induction false} OfferAllKeepsExact(s: Sub, window: seq<Event>, events: seq<Event>, queueSize: int)
    requires Exact(s, window)
    ensures Exact(OfferAll(s, events, queueSize), window + events)
  {
    if events == [] {
      assert window + events == window;
    } else {
      var init, last := events[..|events| - 1], events[|events| - 1];
      OfferAllKeepsExact(s, window, init, queueSize);
      OfferKeepsExact(OfferAll(s, init, queueSize), window + init, last, queueSize);
      assert window + init + [last] == window + events;
    }
  }

  /** Only the queue and the flag ever change, and the flag only upwards. */
  lemma {:induction false} OfferAllFrame(s: Sub, events: seq<Event>, queueSize: int)
    ensures var s' := OfferAll(s, events, queueSize);
            s' == s.(queue := s'.queue, dropped := s'.dropped) && (s.dropped ==> s'.dropped)
  {
    if events != [] {
      OfferAllFrame(s, events[..|events| - 1], queueSize);
    }
  }

  // A whole batch at once: everything wanted is queued as long as it fits.

  predicate Within(s: Sub, queueSize: int) { queueSize > 0 ==> |s.queue| <= queueSize }

  /** More is wanted, with what is still waiting, than a bounded queue holds. */
  predicate Overflows(s: Sub, events: seq<Event>, queueSize: int) {
    queueSize > 0 && |s.queue| + |Wanted(events, s.channels)| > queueSize
  }

  /** What a batch makes of a subscription: a dropped one stays as it is; another one
      is dropped exactly when the batch overflows its queue, and then the queue is
      full of the first events that did fit. */
  predicate Fed(before: Sub, after: Sub, events: seq<Event>, queueSize: int) {
    var all := before.queue + Wanted(events, before.channels);
    if before.dropped then after == before
    else
      && after == before.(queue := after.queue, dropped := after.dropped)
      && (after.dropped <==> Overflows(before, events, queueSize))
      && after.queue == (if after.dropped then all[..queueSize] else all)
  }

  lemma OfferFeeds(before: Sub, s: Sub, events: seq<Event>, event: Event, queueSize: int)
    requires Within(before, queueSize) && Fed(before, s, events, queueSize)
    ensures Fed(before, Offer(s, event, queueSize), events + [event], queueSize)
  {
    WantedConcat(events, [event], before.channels);
    assert Wanted([event], before.channels) == if Wants(before.channels, event.channels) then [event] else [];
    var all := before.queue + Wanted(events, before.channels);
    assert before.queue + Wanted(events + [event], before.channels) == all + Wanted([event], before.channels);
  }

  lemma {:induction false} OfferAllFeeds(s: Sub, events: seq<Event>, queueSize: int)
    requires Within(s, queueSize)
    ensures Fed(s, OfferAll(s, events, queueSize), events, queueSize)
    ensures Within(OfferAll(s, events, queueSize), queueSize)
  {
    if events == [] {
      assert s.queue + Wanted(events, s.channels) == s.queue;
    } else {
      var init, last := events[..|events| - 1], events[|events| - 1];
      OfferAllFeeds(s, init, queueSize);
      OfferFeeds(s, OfferAll(s, init, queueSize), init, last, queueSize);
      assert init + [last] == events;
    }
  }

  /** What fanning out a batch makes of a table: members are fed, others stay, and no
      queue outgrows its size. */
  predicate AllFed(before: map<nat, Sub>, after: map<nat, Sub>, peers: set<nat>, events: seq<Event>, queueSize: int) {
    && after.Keys == before.Keys
    && (forall s | s in before && s !in peers :: after[s] == before[s])
    && (forall s | s in before && s in peers && Within(before[s], queueSize) ::
          Fed(before[s], after[s], events, queueSize) && Within(after[s], queueSize))
  }

  lemma FanOutFeeds(table: map<nat, Sub>, peers: set<nat>, events: seq<Event>, queueSize: int)
    ensures AllFed(table, FanOut(table, peers, events, queueSize), peers, events, queueSize)
  {
    forall s | s in table && s in peers && Within(table[s], queueSize)
      ensures Fed(table[s], OfferAll(table[s], events, queueSize), events, queueSize)
      ensures Within(OfferAll(table[s], events, queueSize), queueSize)
    {
      OfferAllFeeds(table[s], events, queueSize);
    }
  }

  // ------------------------------------------------------------------ steps

  datatype Step =
    | Join(t: int, channels: set<string>)
    | Leave(s: nat)
    | Registered(action: Action)
    | Publish(t: int, grown: Stream)
    | StartRead(r: nat)
    | Serve(r: nat)
    | ReadFails(r: nat)
    | Deliver(r: nat)
    | Consume(s: nat)

  /** The loop guard of `_read_loop`. */
  predicate KeepsReading(b: Bus, r: nat) {
    && r in b.reg.readerTasks && r in b.feeds
    && !b.reg.closed
    && b.reg.readerTasks[r].stop !in b.reg.raised
    && !b.reg.readerTasks[r].cancelled
  }

  /** A reader resumes with its reply only if nobody cancelled it; from the lock
      section that pops it until its cancellation asyncio runs nothing else. */
  ghost predicate Resumes(b: Bus, r: nat) {
    && r in b.reg.readerTasks && r in b.feeds && b.feeds[r].phase.Replied?
    && !b.reg.readerTasks[r].cancelled
    && !Condemned(b.reg, r)
  }

  ghost predicate CanStep(b: Bus, c: Config, step: Step) {
    match step
    case Join(_, _) => true
    case Leave(s) => s in b.table
    case Registered(a) => !a.DoSubscribe? && !a.DoUnsubscribe? && Enabled(b.reg, a)
    case Publish(t, grown) => XAdd(TenantOf(b, t).stream, grown, c.maxlen)
    case StartRead(r) => KeepsReading(b, r) && b.feeds[r].phase == Idle
    case Serve(r) => r in b.reg.readerTasks && r in b.feeds && b.feeds[r].phase.Blocked?
                     && TenantOf(b, b.reg.readerTasks[r].tenant).stream.Valid()
    case ReadFails(r) => r in b.reg.readerTasks && r in b.feeds && b.feeds[r].phase != Idle
    case Deliver(r) => Resumes(b, r)
    case Consume(s) => s in b.table && b.table[s].queue != []
  }

  /** The id "$" stands for. */
  function Newest(log: seq<Entry>): Id {
    if log == [] then ZERO else log[|log| - 1].id
  }

  function Upto(at: nat, n: nat): seq<nat> { seq(n, i requires 0 <= i => at + i) }

  function LeaveAll(b: Bus): map<nat, Sub> {
    map s | s in b.table ::
      if b.table[s].left.None? then b.table[s].(left := Some(|TenantOf(b, b.table[s].tenant).fanned|))
      else b.table[s]
  }

  function JoinStep(b: Bus, t: int, channels: set<string>): Bus {
    var fanned := |TenantOf(b, t).fanned|;
    b.(reg := Subscribe(b.reg, t),
       table := b.table[b.reg.next := Sub(t, channels, [], false, [], fanned, None)],
       feeds := if t in b.reg.readers then b.feeds
                else b.feeds[b.reg.next + 2 := Feed(None, Idle, fanned)])
  }

  function LeaveStep(b: Bus, s: nat): Bus
    requires s in b.table
  {
    var sub := b.table[s];
    b.(reg := Unsubscribe(b.reg, sub.tenant, s),
       table := if s in Peers(b.reg, sub.tenant)
                then b.table[s := sub.(left := Some(|TenantOf(b, sub.tenant).fanned|))]
                else b.table)
  }

  function RegisteredStep(b: Bus, a: Action): Bus
    requires Enabled(b.reg, a)
  {
    b.(reg := Next(b.reg, a), table := if a.DoClear? then LeaveAll(b) else b.table)
  }

  function PublishStep(b: Bus, t: int, grown: Stream): Bus {
    b.(tenants := b.tenants[t := TenantOf(b, t).(stream := grown)])
  }

  function StartReadStep(b: Bus, r: nat): Bus
    requires r in b.reg.readerTasks && r in b.feeds
  {
    var feed := b.feeds[r];
    var log := TenantOf(b, b.reg.readerTasks[r].tenant).stream.log;
    b.(feeds := b.feeds[r := feed.(phase := Blocked(if feed.cursor.Some? then feed.cursor.value else Newest(log)))])
  }

  /** Redis answers a blocked read with what it retains, at most `BATCH` entries;
      none when the block times out. */
  function ServeStep(b: Bus, r: nat): Bus
    requires r in b.reg.readerTasks && r in b.feeds && b.feeds[r].phase.Blocked?
    requires TenantOf(b, b.reg.readerTasks[r].tenant).stream.Valid()
  {
    var feed := b.feeds[r];
    var stream := TenantOf(b, b.reg.readerTasks[r].tenant).stream;
    var at := Max(stream.trimmed, Pos(stream.log, feed.phase.after));
    b.(feeds := b.feeds[r := feed.(phase := Replied(at, XRangeAfter(stream, feed.phase.after, BATCH)))])
  }

  function ReadFailsStep(b: Bus, r: nat): Bus
    requires r in b.feeds
  {
    b.(feeds := b.feeds[r := b.feeds[r].(phase := Idle)])
  }

  /** The tenant and its reader once the batch has been fanned out. */
  function Delivered(feed: Feed, n: Tenant): Tenant
    requires feed.phase.Replied?
  {
    n.(fanned := n.fanned + Upto(feed.phase.at, |feed.phase.batch|))
  }

  function Resumed(feed: Feed): Feed
    requires feed.phase.Replied?
  {
    var batch := feed.phase.batch;
    feed.(phase := Idle, cursor := if batch == [] then feed.cursor else Some(batch[|batch| - 1].id))
  }

  function DeliverStep(b: Bus, c: Config, r: nat): Bus
    requires r in b.reg.readerTasks && r in b.feeds && b.feeds[r].phase.Replied?
  {
    var feed := b.feeds[r];
    var t := b.reg.readerTasks[r].tenant;
    b.(feeds := b.feeds[r := Resumed(feed)],
       table := FanOut(b.table, Peers(b.reg, t), Parsed(feed.phase.batch), c.queueSize),
       tenants := b.tenants[t := Delivered(feed, TenantOf(b, t))])
  }

  function ConsumeStep(b: Bus, s: nat): Bus
    requires s in b.table && b.table[s].queue != []
  {
    var sub := b.table[s];
    b.(table := b.table[s := sub.(queue := sub.queue[1..], consumed := sub.consumed + [sub.queue[0]])])
  }

  ghost function Apply(b: Bus, c: Config, step: Step): Bus
    requires CanStep(b, c, step)
  {
    match step
    case Join(t, channels) => JoinStep(b, t, channels)
    case Leave(s) => LeaveStep(b, s)
    case Registered(a) => RegisteredStep(b, a)
    case Publish(t, grown) => PublishStep(b, t, grown)
    case StartRead(r) => StartReadStep(b, r)
    case Serve(r) => ServeStep(b, r)
    case ReadFails(r) => ReadFailsStep(b, r)
    case Deliver(r) => DeliverStep(b, c, r)
    case Consume(s) => ConsumeStep(b, s)
  }

  // -------------------------------------------------------------- invariant

  predicate Rising(positions: seq<nat>) {
    forall i, j | 0 <= i < j < |positions| :: positions[i] < positions[j]
  }

  predicate TenantOk(n: Tenant) {
    && n.stream.Valid() && n.stream.HoldsSome()
    && PositionsIn(n)
    && Rising(n.fanned)
  }

  /** A subscription against the events fanned out for its tenant: it received
      those of the window in which it was subscribed. */
  predicate Faithful(s: Sub, events: seq<Event>) {
    var end := if s.left.Some? then s.left.value else |events|;
    s.joined <= end <= |events| && Exact(s, events[s.joined..end])
  }

  predicate SubOk(s: Sub, n: Tenant) {
    PositionsIn(n) && Faithful(s, Fanned(n))
  }

  predicate TenantsOk(b: Bus) {
    forall t | t in b.tenants :: TenantOk(b.tenants[t])
  }

  predicate SubsExact(b: Bus) {
    forall s | s in b.table :: SubOk(b.table[s], TenantOf(b, b.table[s].tenant))
  }

  /** The members of a tenant are its subscriptions that have not left. */
  ghost predicate Membership(reg: Registry, table: map<nat, Sub>) {
    && (forall s | s in table :: s < reg.next)
    && (forall t, s :: s in Peers(reg, t) <==> s in table && table[s].tenant == t && table[s].left.None?)
  }

  predicate Known(log: seq<Entry>, id: Id) {
    id == ZERO || exists e :: e in log && e.id == id
  }

  /** The reader of a tenant, relative to what was fanned out. */
  predicate FeedOk(feed: Feed, n: Tenant) {
    && PositionsIn(n)
    && feed.base <= |n.fanned|
    && (feed.cursor.Some? <==> feed.base < |n.fanned|)
    && (feed.cursor.Some? ==> feed.cursor.value == n.stream.log[n.fanned[|n.fanned| - 1]].id)
    && (feed.phase.Blocked? ==>
          && Known(n.stream.log, feed.phase.after)
          && (feed.cursor.Some? ==> feed.phase.after == feed.cursor.value)
          && forall i | 0 <= i < |n.fanned| :: n.fanned[i] < Pos(n.stream.log, feed.phase.after))
    && (feed.phase.Replied? ==>
          var at, batch := feed.phase.at, feed.phase.batch;
          && at + |batch| <= |n.stream.log| && batch == n.stream.log[at..at + |batch|]
          && (forall i | 0 <= i < |n.fanned| :: n.fanned[i] < at)
          && (feed.cursor.Some? ==> at <= n.fanned[|n.fanned| - 1] + 1 || at <= n.stream.trimmed))
    && Skipless(feed, n)
  }

  /** From the reader's first event on, only trimmed entries were skipped. */
  predicate Skipless(feed: Feed, n: Tenant) { Covered(n.fanned, feed.base, n.stream.trimmed) }

  predicate FeedsOk(b: Bus) {
    && (forall r | r in b.feeds :: r < b.reg.next)
    && (forall t | t in b.reg.readers ::
          b.reg.readers[t] in b.feeds && FeedOk(b.feeds[b.reg.readers[t]], TenantOf(b, t)))
  }

  ghost predicate BusOk(b: Bus) {
    && Inv(b.reg)
    && TenantsOk(b)
    && SubsExact(b)
    && Membership(b.reg, b.table)
    && FeedsOk(b)
  }

  // ------------------------------------------------- every step keeps it

  lemma FannedStable(n: Tenant, grown: Stream, maxlen: nat)
    requires TenantOk(n) && XAdd(n.stream, grown, maxlen) && maxlen >= 1
    ensures TenantOk(n.(stream := grown)) && Fanned(n.(stream := grown)) == Fanned(n)
  {
    assert forall i | 0 <= i < |n.stream.log| :: grown.log[i] == n.stream.log[i];
  }

  lemma PosStable(log: seq<Entry>, grown: seq<Entry>, id: Id)
    requires |log| < |grown| && grown[..|log|] == log && Sorted(grown)
    requires forall e | e in grown :: Lt(ZERO, e.id)
    requires Known(log, id)
    ensures Pos(grown, id) == Pos(log, id) && Known(grown, id)
  {
    assert forall i | 0 <= i < |log| :: grown[i] == log[i];
    var p := Pos(log, id);
    if id != ZERO {
      var i :| 0 <= i < |log| && log[i].id == id;
      assert grown[i].id == id;
      assert Lt(id, grown[|log|].id);
    } else {
      assert grown[|log|] in grown;
    }
    PosIs(grown, id, p);
  }

  lemma PublishKeepsFeed(feed: Feed, n: Tenant, grown: Stream, maxlen: nat)
    requires TenantOk(n) && XAdd(n.stream, grown, maxlen) && maxlen >= 1 && FeedOk(feed, n)
    ensures FeedOk(feed, n.(stream := grown))
  {
    assert forall i | 0 <= i < |n.stream.log| :: grown.log[i] == n.stream.log[i];
    if feed.phase.Blocked? { PosStable(n.stream.log, grown.log, feed.phase.after); }
    if feed.phase.Replied? {
      var at, k := feed.phase.at, |feed.phase.batch|;
      assert grown.log[at..at + k] == n.stream.log[at..at + k];
    }
  }

  /** Subscriptions only look at the events fanned out for their tenant. */
  lemma SubsFrame(b: Bus, b': Bus)
    requires SubsExact(b) && b'.table == b.table
    requires forall t :: PositionsIn(TenantOf(b, t)) && PositionsIn(TenantOf(b', t))
                         && Fanned(TenantOf(b', t)) == Fanned(TenantOf(b, t))
    ensures SubsExact(b')
  {
    forall s | s in b'.table ensures SubOk(b'.table[s], TenantOf(b', b'.table[s].tenant)) {
      assert SubOk(b.table[s], TenantOf(b, b.table[s].tenant));
    }
  }

  lemma PublishKeeps(b: Bus, maxlen: nat, t: int, grown: Stream)
    requires TenantsOk(b) && SubsExact(b) && FeedsOk(b)
    requires maxlen >= 1 && XAdd(TenantOf(b, t).stream, grown, maxlen)
    ensures var b' := PublishStep(b, t, grown); TenantsOk(b') && SubsExact(b') && FeedsOk(b')
  {
    var b' := PublishStep(b, t, grown);
    FannedStable(TenantOf(b, t), grown, maxlen);
    PublishKeepsFeeds(b, maxlen, t, grown);
    SubsFrame(b, b');
  }

  lemma PublishKeepsFeeds(b: Bus, maxlen: nat, t: int, grown: Stream)
    requires TenantsOk(b) && FeedsOk(b)
    requires maxlen >= 1 && XAdd(TenantOf(b, t).stream, grown, maxlen)
    ensures FeedsOk(PublishStep(b, t, grown))
  {
    var b' := PublishStep(b, t, grown);
    forall u | u in b'.reg.readers
      ensures b'.reg.readers[u] in b'.feeds && FeedOk(b'.feeds[b'.reg.readers[u]], TenantOf(b', u))
    {
      if u == t { PublishKeepsFeed(b.feeds[b.reg.readers[t]], TenantOf(b, t), grown, maxlen); }
      else { assert FeedOk(b.feeds[b.reg.readers[u]], TenantOf(b, u)); }
    }
  }

  lemma ConsumeKeepsSub(sub: Sub, n: Tenant)
    requires SubOk(sub, n) && sub.queue != []
    ensures SubOk(sub.(queue := sub.queue[1..], consumed := sub.consumed + [sub.queue[0]]), n)
  {
    var sub' := sub.(queue := sub.queue[1..], consumed := sub.consumed + [sub.queue[0]]);
    assert sub.queue == [sub.queue[0]] + sub.queue[1..];
    assert Received(sub') == Received(sub);
  }

  lemma ConsumeKeeps(b: Bus, s: nat)
    requires SubsExact(b) && s in b.table && b.table[s].queue != []
    ensures SubsExact(ConsumeStep(b, s))
  {
    var b' := ConsumeStep(b, s);
    forall q | q in b'.table ensures SubOk(b'.table[q], TenantOf(b', b'.table[q].tenant)) {
      if q == s { ConsumeKeepsSub(b.table[s], TenantOf(b, b.table[s].tenant)); }
      else { assert SubOk(b.table[q], TenantOf(b, b.table[q].tenant)); }
    }
  }

  /** A registered reader belongs to the tenant it is registered for. */
  predicate Owned(reg: Registry) {
    forall t | t in reg.readers ::
      reg.readers[t] in reg.readerTasks && reg.readerTasks[reg.readers[t]].tenant == t
  }

  lemma InvOwned(reg: Registry)
    requires Inv(reg)
    ensures Owned(reg)
  {
  }

  /** A step that only changes reader `r` keeps `FeedsOk` if it keeps `r` right. */
  lemma OneFeed(b: Bus, b': Bus, r: nat)
    requires FeedsOk(b) && Owned(b.reg)
    requires b'.reg == b.reg && b'.tenants == b.tenants
    requires r in b.reg.readerTasks && r in b.feeds && r in b'.feeds && b'.feeds == b.feeds[r := b'.feeds[r]]
    requires var t := b.reg.readerTasks[r].tenant;
             t in b.reg.readers && b.reg.readers[t] == r ==> FeedOk(b'.feeds[r], TenantOf(b, t))
    ensures FeedsOk(b')
  {
    forall t | t in b'.reg.readers
      ensures b'.reg.readers[t] in b'.feeds && FeedOk(b'.feeds[b'.reg.readers[t]], TenantOf(b', t))
    {
      if b.reg.readers[t] != r {
        assert FeedOk(b.feeds[b.reg.readers[t]], TenantOf(b, t));
      }
    }
  }

  lemma StartReadKeepsFeed(feed: Feed, n: Tenant)
    requires TenantOk(n) && FeedOk(feed, n)
    ensures var after := if feed.cursor.Some? then feed.cursor.value else Newest(n.stream.log);
            FeedOk(feed.(phase := Blocked(after)), n)
  {
    var log := n.stream.log;
    var after := if feed.cursor.Some? then feed.cursor.value else Newest(log);
    if feed.cursor.Some? {
      var last := n.fanned[|n.fanned| - 1];
      PosIs(log, after, last + 1);
      assert log[last] in log;
    } else {
      if log != [] { assert log[|log| - 1] in log; }
      PosIs(log, after, |log|);
    }
  }

  lemma StartReadKeeps(b: Bus, r: nat)
    requires FeedsOk(b) && Owned(b.reg) && TenantsOk(b)
    requires r in b.reg.readerTasks && r in b.feeds
    ensures FeedsOk(StartReadStep(b, r))
  {
    var t := b.reg.readerTasks[r].tenant;
    if t in b.reg.readers && b.reg.readers[t] == r {
      StartReadKeepsFeed(b.feeds[r], TenantOf(b, t));
    }
    OneFeed(b, StartReadStep(b, r), r);
  }

  lemma TakenPiece(log: seq<Entry>, at: nat, count: nat)
    requires at <= |log|
    ensures var batch := Take(log[at..], count);
            && at + |batch| <= |log| && batch == log[at..at + |batch|]
            && |batch| == if |log| - at <= count then |log| - at else count
  {
  }

  /** The reply is the piece of the stream from the read position on: all of it, or
      the first 200 entries. */
  lemma ReplyIsPiece(s: Stream, after: Id)
    requires s.Valid()
    ensures var at, batch := Max(s.trimmed, Pos(s.log, after)), XRangeAfter(s, after, BATCH);
            && at + |batch| <= |s.log| && batch == s.log[at..at + |batch|]
            && |batch| == if |s.log| - at <= 200 then |s.log| - at else 200
  {
    RetainedAfter(s, after);
    TakenPiece(s.log, Max(s.trimmed, Pos(s.log, after)), BATCH);
  }

  lemma ServeKeepsFeed(feed: Feed, n: Tenant)
    requires TenantOk(n) && FeedOk(feed, n) && feed.phase.Blocked?
    ensures var at := Max(n.stream.trimmed, Pos(n.stream.log, feed.phase.after));
            FeedOk(feed.(phase := Replied(at, XRangeAfter(n.stream, feed.phase.after, BATCH))), n)
  {
    ReplyIsPiece(n.stream, feed.phase.after);
    if feed.cursor.Some? { PosIs(n.stream.log, feed.phase.after, n.fanned[|n.fanned| - 1] + 1); }
    RepliedIsOk(feed, n, XRangeAfter(n.stream, feed.phase.after, BATCH));
  }

  lemma RepliedIsOk(feed: Feed, n: Tenant, batch: seq<Entry>)
    requires FeedOk(feed, n) && feed.phase.Blocked?
    requires feed.cursor.Some? ==> Pos(n.stream.log, feed.phase.after) == n.fanned[|n.fanned| - 1] + 1
    requires var at := Max(n.stream.trimmed, Pos(n.stream.log, feed.phase.after));
             at + |batch| <= |n.stream.log| && batch == n.stream.log[at..at + |batch|]
    ensures FeedOk(feed.(phase := Replied(Max(n.stream.trimmed, Pos(n.stream.log, feed.phase.after)), batch)), n)
  {
  }

  lemma ServeKeeps(b: Bus, r: nat)
    requires FeedsOk(b) && Owned(b.reg) && TenantsOk(b)
    requires r in b.reg.readerTasks && r in b.feeds && b.feeds[r].phase.Blocked?
    ensures FeedsOk(ServeStep(b, r))
  {
    var t := b.reg.readerTasks[r].tenant;
    if t in b.reg.readers && b.reg.readers[t] == r {
      ServeKeepsFeed(b.feeds[r], TenantOf(b, t));
    }
    OneFeed(b, ServeStep(b, r), r);
  }

  lemma ReadFailsKeeps(b: Bus, r: nat)
    requires FeedsOk(b) && Owned(b.reg)
    requires r in b.reg.readerTasks && r in b.feeds
    ensures FeedsOk(ReadFailsStep(b, r))
  {
    OneFeed(b, ReadFailsStep(b, r), r);
  }

  /** Fanning out a batch extends what was fanned out by exactly the batch. */
  lemma DeliverExtends(feed: Feed, n: Tenant)
    requires TenantOk(n) && FeedOk(feed, n) && feed.phase.Replied?
    ensures TenantOk(Delivered(feed, n))
    ensures Fanned(Delivered(feed, n)) == Fanned(n) + Parsed(feed.phase.batch)
  {
    PieceExtends(n, feed.phase.at, feed.phase.batch);
  }

  lemma PieceExtends(n: Tenant, at: nat, batch: seq<Entry>)
    requires TenantOk(n) && at + |batch| <= |n.stream.log| && batch == n.stream.log[at..at + |batch|]
    requires forall i | 0 <= i < |n.fanned| :: n.fanned[i] < at
    ensures var n' := n.(fanned := n.fanned + Upto(at, |batch|));
            TenantOk(n') && Fanned(n') == Fanned(n) + Parsed(batch)
  {
    var n' := n.(fanned := n.fanned + Upto(at, |batch|));
    assert forall i | |n.fanned| <= i < |n'.fanned| :: n'.fanned[i] == at + (i - |n.fanned|);
  }

  lemma DeliverKeepsSkipless(feed: Feed, n: Tenant)
    requires PositionsIn(n) && FeedOk(feed, n) && feed.phase.Replied?
    ensures Skipless(Resumed(feed), Delivered(feed, n))
  {
    PiecesAreSkipless(n.fanned, feed.base, feed.phase.at, |feed.phase.batch|, n.stream.trimmed);
  }

  /** `Skipless`, of positions alone. */
  predicate Covered(positions: seq<nat>, base: nat, trimmed: nat) {
    forall j | base < |positions| && positions[base] <= j <= positions[|positions| - 1] ::
      j in positions[base..] || j < trimmed
  }

  lemma PiecesAreSkipless(positions: seq<nat>, base: nat, at: nat, k: nat, trimmed: nat)
    requires base <= |positions| && Covered(positions, base, trimmed)
    requires base < |positions| ==> at <= positions[|positions| - 1] + 1 || at <= trimmed
    ensures Covered(positions + Upto(at, k), base, trimmed)
  {
    var more := positions + Upto(at, k);
    forall j | base < |more| && more[base] <= j <= more[|more| - 1] ensures j in more[base..] || j < trimmed {
      CoveredInPiece(positions, base, at, k, trimmed, j);
    }
  }

  lemma CoveredInPiece(positions: seq<nat>, base: nat, at: nat, k: nat, trimmed: nat, j: nat)
    requires base <= |positions| && Covered(positions, base, trimmed)
    requires base < |positions| ==> at <= positions[|positions| - 1] + 1 || at <= trimmed
    requires var more := positions + Upto(at, k); base < |more| && more[base] <= j <= more[|more| - 1]
    ensures j in (positions + Upto(at, k))[base..] || j < trimmed
  {
    var more := positions + Upto(at, k);
    if k > 0 && at <= j {
      assert more[base..][|positions| - base + (j - at)] == j;
    } else if base < |positions| && j <= positions[|positions| - 1] {
      if j !in positions[base..] {
        assert j < trimmed;
      } else {
        var i :| 0 <= i < |positions| - base && positions[base..][i] == j;
        assert more[base..][i] == j;
      }
    }
  }

  lemma DeliverKeepsFeed(feed: Feed, n: Tenant)
    requires TenantOk(n) && FeedOk(feed, n) && feed.phase.Replied?
    ensures FeedOk(Resumed(feed), Delivered(feed, n))
  {
    var at, batch, n' := feed.phase.at, feed.phase.batch, Delivered(feed, n);
    DeliverExtends(feed, n);
    DeliverKeepsSkipless(feed, n);
    if batch == [] {
      assert n'.fanned == n.fanned;
    } else {
      assert n'.fanned[|n'.fanned| - 1] == at + |batch| - 1;
    }
  }

  predicate CanDeliver(b: Bus, r: nat) {
    && r in b.reg.readerTasks && r in b.feeds && b.feeds[r].phase.Replied?
    && var t := b.reg.readerTasks[r].tenant;
    && t in b.reg.readers && b.reg.readers[t] == r
  }

  lemma OneTenant(b: Bus, b': Bus, t: int)
    requires FeedsOk(b) && Owned(b.reg) && t in b.reg.readers
    requires b'.reg == b.reg && b.reg.readers[t] in b'.feeds && t in b'.tenants
    requires b'.feeds == b.feeds[b.reg.readers[t] := b'.feeds[b.reg.readers[t]]]
    requires b'.tenants == b.tenants[t := b'.tenants[t]]
    requires FeedOk(b'.feeds[b.reg.readers[t]], b'.tenants[t])
    ensures FeedsOk(b')
  {
    forall u | u in b'.reg.readers
      ensures b'.reg.readers[u] in b'.feeds && FeedOk(b'.feeds[b'.reg.readers[u]], TenantOf(b', u))
    {
      if u != t { assert FeedOk(b.feeds[b.reg.readers[u]], TenantOf(b, u)); }
    }
  }

  lemma DeliverKeepsFeeds(b: Bus, c: Config, r: nat)
    requires CanDeliver(b, r) && FeedsOk(b) && Owned(b.reg)
    requires FeedOk(Resumed(b.feeds[r]), Delivered(b.feeds[r], TenantOf(b, b.reg.readerTasks[r].tenant)))
    ensures FeedsOk(DeliverStep(b, c, r))
  {
    OneTenant(b, DeliverStep(b, c, r), b.reg.readerTasks[r].tenant);
  }

  /** More events: a subscriber that is still there is offered them, one that
      left is not looked at any more. */
  lemma FaithfulExtends(s: Sub, events: seq<Event>, more: seq<Event>, queueSize: int)
    requires Faithful(s, events)
    ensures s.left.None? ==> Faithful(OfferAll(s, more, queueSize), events + more)
    ensures s.left.Some? ==> Faithful(s, events + more)
  {
    OfferAllFrame(s, more, queueSize);
    if s.left.None? {
      assert events[s.joined..|events|] == events[s.joined..];
      OfferAllKeepsExact(s, events[s.joined..], more, queueSize);
      assert (events + more)[s.joined..|events + more|] == events[s.joined..] + more;
    } else {
      assert (events + more)[s.joined..s.left.value] == events[s.joined..s.left.value];
    }
  }

  lemma DeliverKeepsSubs(b: Bus, c: Config, r: nat)
    requires CanDeliver(b, r) && SubsExact(b) && Membership(b.reg, b.table)
    requires var n := TenantOf(b, b.reg.readerTasks[r].tenant);
             var n' := Delivered(b.feeds[r], n);
             PositionsIn(n) && PositionsIn(n') && Fanned(n') == Fanned(n) + Parsed(b.feeds[r].phase.batch)
    ensures SubsExact(DeliverStep(b, c, r))
  {
    var b' := DeliverStep(b, c, r);
    var events := Parsed(b.feeds[r].phase.batch);
    forall s | s in b'.table ensures SubOk(b'.table[s], TenantOf(b', b'.table[s].tenant)) {
      var sub := b.table[s];
      assert SubOk(sub, TenantOf(b, sub.tenant));
      OfferAllFrame(sub, events, c.queueSize);
      FaithfulExtends(sub, Fanned(TenantOf(b, sub.tenant)), events, c.queueSize);
    }
  }

  lemma DeliverKeepsMembership(b: Bus, c: Config, r: nat)
    requires CanDeliver(b, r) && Membership(b.reg, b.table)
    ensures Membership(b.reg, DeliverStep(b, c, r).table)
  {
    forall s | s in b.table ensures var s' := DeliverStep(b, c, r).table[s];
                                    s'.tenant == b.table[s].tenant && s'.left == b.table[s].left {
      OfferAllFrame(b.table[s], Parsed(b.feeds[r].phase.batch), c.queueSize);
    }
  }

  lemma DeliverFacts(b: Bus, r: nat)
    requires CanDeliver(b, r) && TenantsOk(b) && FeedsOk(b)
    ensures var feed, n := b.feeds[r], TenantOf(b, b.reg.readerTasks[r].tenant);
            && PositionsIn(n) && TenantOk(Delivered(feed, n))
            && Fanned(Delivered(feed, n)) == Fanned(n) + Parsed(feed.phase.batch)
            && FeedOk(Resumed(feed), Delivered(feed, n))
  {
    var feed, n := b.feeds[r], TenantOf(b, b.reg.readerTasks[r].tenant);
    assert TenantOk(n) && FeedOk(feed, n);
    DeliverExtends(feed, n);
    DeliverKeepsFeed(feed, n);
  }

  lemma DeliverKeepsTenants(b: Bus, c: Config, r: nat)
    requires CanDeliver(b, r) && TenantsOk(b)
    requires TenantOk(Delivered(b.feeds[r], TenantOf(b, b.reg.readerTasks[r].tenant)))
    ensures TenantsOk(DeliverStep(b, c, r))
  {
    var b' := DeliverStep(b, c, r);
    forall t | t in b'.tenants ensures TenantOk(b'.tenants[t]) {
      if t != b.reg.readerTasks[r].tenant { assert TenantOk(b.tenants[t]); }
    }
  }

  // ------------------------------------------- joining, leaving, closing

  lemma JoinKeepsSubs(b: Bus, t: int, channels: set<string>)
    requires TenantsOk(b) && SubsExact(b)
    ensures SubsExact(JoinStep(b, t, channels))
  {
    var b' := JoinStep(b, t, channels);
    forall s | s in b'.table ensures SubOk(b'.table[s], TenantOf(b', b'.table[s].tenant)) {
      if s == b.reg.next {
        assert TenantOk(TenantOf(b, t));
      } else {
        assert SubOk(b.table[s], TenantOf(b, b.table[s].tenant));
      }
    }
  }

  lemma JoinKeepsMembership(b: Bus, t: int, channels: set<string>)
    requires Membership(b.reg, b.table)
    ensures Membership(JoinStep(b, t, channels).reg, JoinStep(b, t, channels).table)
  {
    var b' := JoinStep(b, t, channels);
    assert b.reg.next !in b.table;
    assert forall u :: Peers(b'.reg, u) == if u == t then Peers(b.reg, u) + {b.reg.next} else Peers(b.reg, u);
  }

  lemma JoinKeepsFeeds(b: Bus, t: int, channels: set<string>)
    requires TenantsOk(b) && FeedsOk(b)
    ensures FeedsOk(JoinStep(b, t, channels))
  {
    var b' := JoinStep(b, t, channels);
    forall u | u in b'.reg.readers
      ensures b'.reg.readers[u] in b'.feeds && FeedOk(b'.feeds[b'.reg.readers[u]], TenantOf(b', u))
    {
      if u in b.reg.readers { assert FeedOk(b.feeds[b.reg.readers[u]], TenantOf(b, u)); }
      else { assert TenantOk(TenantOf(b, t)); }
    }
  }

  lemma LeaveKeepsSubs(b: Bus, s: nat)
    requires s in b.table && SubsExact(b) && Membership(b.reg, b.table)
    ensures SubsExact(LeaveStep(b, s))
  {
    var b' := LeaveStep(b, s);
    forall q | q in b'.table ensures SubOk(b'.table[q], TenantOf(b', b'.table[q].tenant)) {
      assert SubOk(b.table[q], TenantOf(b, b.table[q].tenant));
    }
  }

  lemma LeaveKeepsMembership(b: Bus, s: nat)
    requires s in b.table && Membership(b.reg, b.table)
    ensures Membership(LeaveStep(b, s).reg, LeaveStep(b, s).table)
  {
    var b' := LeaveStep(b, s);
    var t := b.table[s].tenant;
    assert forall u :: Peers(b'.reg, u) == if u == t then Peers(b.reg, u) - {s} else Peers(b.reg, u);
  }

  /** Apart from `Clear`, the remaining registry steps leave members and
      subscriptions alone. */
  lemma RegisteredKeepsMembership(b: Bus, a: Action)
    requires Enabled(b.reg, a) && !a.DoSubscribe? && !a.DoUnsubscribe?
    requires Membership(b.reg, b.table)
    ensures Membership(RegisteredStep(b, a).reg, RegisteredStep(b, a).table)
  {
    var b' := RegisteredStep(b, a);
    if a.DoClear? {
      assert forall t :: Peers(b'.reg, t) == {};
    } else {
      assert forall t :: Peers(b'.reg, t) == Peers(b.reg, t);
    }
  }

  lemma RegisteredKeepsSubs(b: Bus, a: Action)
    requires Enabled(b.reg, a) && SubsExact(b)
    ensures SubsExact(RegisteredStep(b, a))
  {
    var b' := RegisteredStep(b, a);
    forall q | q in b'.table ensures SubOk(b'.table[q], TenantOf(b', b'.table[q].tenant)) {
      assert SubOk(b.table[q], TenantOf(b, b.table[q].tenant));
    }
  }

  lemma RegisteredKeepsFeeds(b: Bus, a: Action)
    requires Enabled(b.reg, a) && !a.DoSubscribe? && !a.DoUnsubscribe? && FeedsOk(b)
    ensures FeedsOk(RegisteredStep(b, a))
  {
    var b' := RegisteredStep(b, a);
    forall u | u in b'.reg.readers
      ensures b'.reg.readers[u] in b'.feeds && FeedOk(b'.feeds[b'.reg.readers[u]], TenantOf(b', u))
    {
      assert u in b.reg.readers && b'.reg.readers[u] == b.reg.readers[u];
      assert FeedOk(b.feeds[b.reg.readers[u]], TenantOf(b, u));
    }
  }

  // -------------------------------------------------------------- whole runs

  lemma StepKeepsTenants(b: Bus, c: Config, step: Step)
    requires TenantsOk(b) && SubsExact(b) && FeedsOk(b) && CanStep(b, c, step) && c.maxlen >= 1 && !step.Deliver?
    ensures TenantsOk(Apply(b, c, step))
  {
    if step.Publish? { PublishKeeps(b, c.maxlen, step.t, step.grown); }
  }

  /** A reader that resumes is the one in the dictionary. */
  lemma ResumedReaderIsRegistered(b: Bus, r: nat)
    requires Inv(b.reg) && Resumes(b, r)
    ensures CanDeliver(b, r)
  {
  }

  lemma StepKeepsSubs(b: Bus, c: Config, step: Step)
    requires TenantsOk(b) && SubsExact(b) && FeedsOk(b) && Membership(b.reg, b.table)
    requires CanStep(b, c, step) && c.maxlen >= 1 && !step.Deliver?
    ensures SubsExact(Apply(b, c, step))
  {
    match step
    case Join(t, channels) => JoinKeepsSubs(b, t, channels);
    case Leave(s) => LeaveKeepsSubs(b, s);
    case Registered(a) => RegisteredKeepsSubs(b, a);
    case Publish(t, grown) => PublishKeeps(b, c.maxlen, t, grown);
    case Consume(s) => ConsumeKeeps(b, s);
    case StartRead(r) => SubsFrame(b, StartReadStep(b, r));
    case Serve(r) => SubsFrame(b, ServeStep(b, r));
    case ReadFails(r) => SubsFrame(b, ReadFailsStep(b, r));
  }

  lemma StepKeepsMembership(b: Bus, c: Config, step: Step)
    requires Membership(b.reg, b.table) && CanStep(b, c, step) && !step.Deliver?
    ensures Membership(Apply(b, c, step).reg, Apply(b, c, step).table)
  {
    match step
    case Join(t, channels) => JoinKeepsMembership(b, t, channels);
    case Leave(s) => LeaveKeepsMembership(b, s);
    case Registered(a) => RegisteredKeepsMembership(b, a);
    case _ =>
  }

  lemma DeliveryKeeps(b: Bus, c: Config, r: nat)
    requires BusOk(b) && Resumes(b, r)
    ensures CanDeliver(b, r)
    ensures var b' := DeliverStep(b, c, r);
            TenantsOk(b') && SubsExact(b') && FeedsOk(b') && Membership(b'.reg, b'.table)
  {
    InvOwned(b.reg);
    ResumedReaderIsRegistered(b, r);
    DeliverFacts(b, r);
    DeliverKeepsTenants(b, c, r);
    DeliverKeepsSubs(b, c, r);
    DeliverKeepsFeeds(b, c, r);
    DeliverKeepsMembership(b, c, r);
  }

  lemma StepKeepsFeeds(b: Bus, c: Config, step: Step)
    requires Owned(b.reg) && TenantsOk(b) && SubsExact(b) && FeedsOk(b)
    requires CanStep(b, c, step) && c.maxlen >= 1 && !step.Deliver?
    ensures FeedsOk(Apply(b, c, step))
  {
    match step
    case Join(t, channels) => JoinKeepsFeeds(b, t, channels);
    case Leave(s) => LeaveKeepsFeeds(b, s);
    case Registered(a) => RegisteredKeepsFeeds(b, a);
    case Publish(t, grown) => PublishKeeps(b, c.maxlen, t, grown);
    case StartRead(r) => StartReadKeeps(b, r);
    case Serve(r) => ServeKeeps(b, r);
    case ReadFails(r) => ReadFailsKeeps(b, r);
    case Consume(s) => FeedsFrame(b, ConsumeStep(b, s));
  }

  /** Readers do not look at the subscribers. */
  lemma FeedsFrame(b: Bus, b': Bus)
    requires FeedsOk(b) && b'.feeds == b.feeds && b'.tenants == b.tenants
    requires b'.reg.readers == b.reg.readers && b.reg.next <= b'.reg.next
    ensures FeedsOk(b')
  {
    forall u | u in b'.reg.readers
      ensures b'.reg.readers[u] in b'.feeds && FeedOk(b'.feeds[b'.reg.readers[u]], TenantOf(b', u))
    {
      assert FeedOk(b.feeds[b.reg.readers[u]], TenantOf(b, u));
    }
  }

  lemma LeaveKeepsFeeds(b: Bus, s: nat)
    requires s in b.table && FeedsOk(b)
    ensures FeedsOk(LeaveStep(b, s))
  {
    FeedsFrame(b, LeaveStep(b, s));
  }

  lemma StepKeepsReg(b: Bus, c: Config, step: Step)
    requires Inv(b.reg) && CanStep(b, c, step)
    ensures Inv(Apply(b, c, step).reg)
  {
    match step
    case Join(t, channels) => NextKeeps(b.reg, DoSubscribe(t));
    case Leave(s) => NextKeeps(b.reg, DoUnsubscribe(b.table[s].tenant, s));
    case Registered(a) => NextKeeps(b.reg, a);
    case _ =>
  }

  lemma StepKeepsBusOk(b: Bus, c: Config, step: Step)
    requires BusOk(b) && CanStep(b, c, step) && c.maxlen >= 1
    ensures BusOk(Apply(b, c, step))
  {
    StepKeepsReg(b, c, step);
    if step.Deliver? {
      DeliveryKeeps(b, c, step.r);
    } else {
      InvOwned(b.reg);
      StepKeepsTenants(b, c, step);
      StepKeepsMembership(b, c, step);
      StepKeepsSubs(b, c, step);
      StepKeepsFeeds(b, c, step);
    }
  }

  ghost predicate StepsTo(b: Bus, c: Config, step: Step, b': Bus) {
    CanStep(b, c, step) && b' == Apply(b, c, step)
  }

  /** A run: any interleaving of steps, from an empty bus. */
  ghost predicate Run(states: seq<Bus>, steps: seq<Step>, c: Config) {
    && |states| == |steps| + 1
    && states[0] == START
    && forall i | 0 <= i < |steps| :: StepsTo(states[i], c, steps[i], states[i + 1])
  }

  lemma RunPrefix(states: seq<Bus>, steps: seq<Step>, c: Config)
    requires Run(states, steps, c) && steps != []
    ensures Run(states[..|steps|], steps[..|steps| - 1], c)
    ensures StepsTo(states[|steps| - 1], c, steps[|steps| - 1], states[|steps|])
  {
    var n := |steps| - 1;
    assert StepsTo(states[n], c, steps[n], states[n + 1]);
    forall i | 0 <= i < n ensures StepsTo(states[..n + 1][i], c, steps[..n][i], states[..n + 1][i + 1]) {
      assert StepsTo(states[i], c, steps[i], states[i + 1]);
    }
  }

  lemma {:induction false} RunKeepsBusOk(states: seq<Bus>, steps: seq<Step>, c: Config)
    requires Run(states, steps, c) && c.maxlen >= 1
    ensures BusOk(states[|steps|])
  {
    if steps != [] {
      var n := |steps| - 1;
      var b := states[n];
      RunPrefix(states, steps, c);
      RunKeepsBusOk(states[..n + 1], steps[..n], c);
      StepKeepsBusOk(b, c, steps[n]);
    }
  }

  /** In every reachable state every tenant of an open bus is in one of the
      promised situations. */
  lemma LifecycleAlways(states: seq<Bus>, steps: seq<Step>, c: Config, t: int)
    requires Run(states, steps, c) && c.maxlen >= 1
    ensures !states[|steps|].reg.closed ==> Lifecycle(states[|steps|].reg, t)
  {
    RunKeepsBusOk(states, steps, c);
    if !states[|steps|].reg.closed { InvGivesLifecycle(states[|steps|].reg, t); }
  }

  /** In every reachable state each subscriber has received, delivered or queued,
      exactly the events of its tenant fanned out while it was subscribed whose
      channels meet its own; once dropped, a proper prefix of them. */
  lemma SubscribersAreExact(states: seq<Bus>, steps: seq<Step>, c: Config, s: nat)
    requires Run(states, steps, c) && c.maxlen >= 1 && s in states[|steps|].table
    ensures var b := states[|steps|];
            var sub := b.table[s];
            var n := TenantOf(b, sub.tenant);
            var end := if sub.left.Some? then sub.left.value else |n.fanned|;
            && PositionsIn(n) && sub.joined <= end <= |n.fanned|
            && (!sub.dropped ==> sub.consumed + sub.queue == Wanted(Fanned(n)[sub.joined..end], sub.channels))
            && (sub.dropped ==> sub.consumed + sub.queue < Wanted(Fanned(n)[sub.joined..end], sub.channels))
  {
    RunKeepsBusOk(states, steps, c);
    assert SubOk(states[|steps|].table[s], TenantOf(states[|steps|], states[|steps|].table[s].tenant));
  }

  lemma StepKeepsDropped(b: Bus, c: Config, step: Step, s: nat)
    requires CanStep(b, c, step) && (forall q | q in b.table :: q < b.reg.next)
    requires s in b.table && b.table[s].dropped
    ensures s in Apply(b, c, step).table && Apply(b, c, step).table[s].dropped
  {
    if step.Deliver? {
      OfferAllFrame(b.table[s], Parsed(b.feeds[step.r].phase.batch), c.queueSize);
    }
  }

  /** No step forgets that a subscriber was dropped, or the subscriber itself. */
  lemma {:induction false} DroppedForGood(states: seq<Bus>, steps: seq<Step>, c: Config, i: nat, s: nat)
    requires Run(states, steps, c) && c.maxlen >= 1 && i <= |steps|
    requires s in states[i].table && states[i].table[s].dropped
    ensures s in states[|steps|].table && states[|steps|].table[s].dropped
    decreases |steps|
  {
    if i < |steps| {
      var n := |steps| - 1;
      RunPrefix(states, steps, c);
      DroppedForGood(states[..n + 1], steps[..n], c, i, s);
      RunKeepsBusOk(states[..n + 1], steps[..n], c);
      StepKeepsDropped(states[n], c, steps[n], s);
    }
  }

  /** Across all the readers a tenant ever had, positions, and so ids, are fanned
      out in strictly increasing order; versions never fall, and tie only for two
      counters of 999 or more in one millisecond; and from its first event on the
      current reader skipped only entries that trimming removed. */
  lemma ReadersAreInOrder(states: seq<Bus>, steps: seq<Step>, c: Config, t: int)
    requires Run(states, steps, c) && c.maxlen >= 1
    ensures var b := states[|steps|];
            var n := TenantOf(b, t);
            && PositionsIn(n)
            && (forall i, j | 0 <= i < j < |n.fanned| ::
                  n.fanned[i] < n.fanned[j] && Lt(Fanned(n)[i].id, Fanned(n)[j].id)
                  && Fanned(n)[i].v <= Fanned(n)[j].v
                  && (Fanned(n)[i].v == Fanned(n)[j].v <==>
                        Fanned(n)[i].id.ms == Fanned(n)[j].id.ms && Fanned(n)[i].id.counter >= 999))
            && (t in b.reg.readers ==> b.reg.readers[t] in b.feeds && Skipless(b.feeds[b.reg.readers[t]], n))
  {
    RunKeepsBusOk(states, steps, c);
    var b := states[|steps|];
    var n := TenantOf(b, t);
    assert TenantOk(n);
    if t in b.reg.readers { assert FeedOk(b.feeds[b.reg.readers[t]], n); }
    forall i, j | 0 <= i < j < |n.fanned|
      ensures Lt(Fanned(n)[i].id, Fanned(n)[j].id) && Fanned(n)[i].v <= Fanned(n)[j].v
      ensures Fanned(n)[i].v == Fanned(n)[j].v <==>
                Fanned(n)[i].id.ms == Fanned(n)[j].id.ms && Fanned(n)[i].id.counter >= 999
    {
      VersionOrdersIds(Fanned(n)[i].id, Fanned(n)[j].id);
    }
  }

  // --------------------------------------------- queues, joining and leaving

  predicate Bounded(b: Bus, queueSize: int) { forall s | s in b.table :: Within(b.table[s], queueSize) }

  lemma StepKeepsBounded(b: Bus, c: Config, step: Step)
    requires CanStep(b, c, step) && Bounded(b, c.queueSize)
    ensures Bounded(Apply(b, c, step), c.queueSize)
  {
    if step.Deliver? {
      var events := Parsed(b.feeds[step.r].phase.batch);
      forall s | s in b.table ensures Within(OfferAll(b.table[s], events, c.queueSize), c.queueSize) {
        OfferAllFeeds(b.table[s], events, c.queueSize);
      }
    }
  }

  /** No queue of any run is longer than a positive queue size. */
  lemma {:induction false} QueuesAreBounded(states: seq<Bus>, steps: seq<Step>, c: Config)
    requires Run(states, steps, c)
    ensures Bounded(states[|steps|], c.queueSize)
  {
    if steps != [] {
      var n := |steps| - 1;
      RunPrefix(states, steps, c);
      QueuesAreBounded(states[..n + 1], steps[..n], c);
      StepKeepsBounded(states[n], c, steps[n]);
    }
  }

  /** What is fanned out for a tenant between two moments. */
  function News(n: Tenant, n': Tenant): seq<Event>
    requires PositionsIn(n')
  {
    if |n.fanned| <= |n'.fanned| then Fanned(n')[|n.fanned|..] else []
  }

  /** The queue and the mark of a subscription that is not dropped, after `news` was
      fanned out for its tenant. */
  predicate QueueFollows(sub: Sub, sub': Sub, news: seq<Event>, queueSize: int) {
    && (sub'.dropped <==> sub.left.None? && Overflows(sub, news, queueSize))
    && (sub.left.None? && news != [] ==> Fed(sub, sub', news, queueSize))
  }

  lemma DeliveryIsNews(b: Bus, c: Config, r: nat, t: int)
    requires BusOk(b) && Resumes(b, r) && PositionsIn(TenantOf(DeliverStep(b, c, r), t))
    ensures News(TenantOf(b, t), TenantOf(DeliverStep(b, c, r), t))
            == if t == b.reg.readerTasks[r].tenant then Parsed(b.feeds[r].phase.batch) else []
  {
    var feed, n := b.feeds[r], TenantOf(b, t);
    if t == b.reg.readerTasks[r].tenant {
      InvOwned(b.reg);
      ResumedReaderIsRegistered(b, r);
      DeliverFacts(b, r);
      NewsAppended(n, Delivered(feed, n), Parsed(feed.phase.batch));
    } else {
      assert TenantOf(DeliverStep(b, c, r), t) == n;
    }
  }

  lemma NewsAppended(n: Tenant, n': Tenant, events: seq<Event>)
    requires PositionsIn(n) && PositionsIn(n') && Fanned(n') == Fanned(n) + events
    ensures News(n, n') == events
  {
    assert (Fanned(n) + events)[|n.fanned|..] == events;
  }

  lemma DeliveryFollows(b: Bus, c: Config, r: nat, s: nat)
    requires BusOk(b) && Bounded(b, c.queueSize) && Resumes(b, r) && s in b.table && !b.table[s].dropped
    requires PositionsIn(TenantOf(DeliverStep(b, c, r), b.table[s].tenant))
    ensures var b' := DeliverStep(b, c, r);
            QueueFollows(b.table[s], b'.table[s],
                         News(TenantOf(b, b.table[s].tenant), TenantOf(b', b.table[s].tenant)), c.queueSize)
  {
    DeliveryIsNews(b, c, r, b.table[s].tenant);
    OfferAllFeeds(b.table[s], Parsed(b.feeds[r].phase.batch), c.queueSize);
    NothingOverflows(b.table[s], c.queueSize);
  }

  lemma NothingOverflows(sub: Sub, queueSize: int)
    requires Within(sub, queueSize)
    ensures !Overflows(sub, [], queueSize)
  {
  }

  /** Only deliveries fan out, and mark. */
  lemma OtherStepIsQuiet(b: Bus, c: Config, step: Step, s: nat)
    requires CanStep(b, c, step) && !step.Deliver? && s in b.table && s < b.reg.next
    ensures var b' := Apply(b, c, step);
            && s in b'.table && b'.table[s].dropped == b.table[s].dropped
            && forall t :: TenantOf(b', t).fanned == TenantOf(b, t).fanned
  {
    match step
    case Publish(t, grown) =>
    case Registered(a) =>
    case Leave(q) =>
    case _ =>
  }

  /** In every run a subscription is dropped exactly by a step that, while it is
      subscribed, fans out more that it wants than its queue has room for, and until
      then everything it wants is queued. */
  lemma DroppedIff(states: seq<Bus>, steps: seq<Step>, c: Config, s: nat)
    requires Run(states, steps, c) && c.maxlen >= 1 && steps != []
    requires s in states[|steps| - 1].table && !states[|steps| - 1].table[s].dropped
    ensures var b, b' := states[|steps| - 1], states[|steps|];
            var t := b.table[s].tenant;
            && s in b'.table && PositionsIn(TenantOf(b', t))
            && QueueFollows(b.table[s], b'.table[s], News(TenantOf(b, t), TenantOf(b', t)), c.queueSize)
  {
    var n := |steps| - 1;
    var b, t := states[n], states[n].table[s].tenant;
    RunPrefix(states, steps, c);
    RunKeepsBusOk(states[..n + 1], steps[..n], c);
    RunKeepsBusOk(states, steps, c);
    PositionsInOf(states[n + 1], t);
    QueuesAreBounded(states[..n + 1], steps[..n], c);
    if steps[n].Deliver? {
      DeliveryFollows(b, c, steps[n].r, s);
    } else {
      OtherStepIsQuiet(b, c, steps[n], s);
      QuietFollows(b.table[s], states[n + 1].table[s], TenantOf(b, t), TenantOf(states[n + 1], t), c.queueSize);
    }
  }

  lemma PositionsInOf(b: Bus, t: int)
    requires TenantsOk(b)
    ensures PositionsIn(TenantOf(b, t))
  {
    if t in b.tenants { assert TenantOk(b.tenants[t]); }
  }

  lemma QuietFollows(sub: Sub, sub': Sub, n: Tenant, n': Tenant, queueSize: int)
    requires Within(sub, queueSize) && !sub'.dropped && PositionsIn(n') && n'.fanned == n.fanned
    ensures QueueFollows(sub, sub', News(n, n'), queueSize)
  {
    NothingOverflows(sub, queueSize);
  }

  /** A subscription leaves: it is no member any more, nothing else changes, and if it
      was the last one of an open bus, one new linger task sleeps for its tenant. */
  ghost predicate Departs(b: Bus, b': Bus, s: nat)
    requires s in b.table
  {
    var t := b.table[s].tenant;
    var member, last := s in Peers(b.reg, t), !b.reg.closed && t in b.reg.subs && b.reg.subs[t] <= {s};
    && (forall u :: Peers(b'.reg, u) == if u == t then Peers(b.reg, u) - {s} else Peers(b.reg, u))
    && s in b'.table && b'.table == b.table[s := b'.table[s]] && b'.feeds == b.feeds && b'.tenants == b.tenants
    && b'.table[s] == b.table[s].(left := if member then Some(|TenantOf(b, t).fanned|) else b.table[s].left)
    && (last ==> t !in b'.reg.subs && t in b'.reg.linger && b'.reg.linger == b.reg.linger[t := b'.reg.linger[t]]
                 && b'.reg.lingerTasks == b.reg.lingerTasks[b'.reg.linger[t] := LingerTask(t, false, Sleeping)])
    && (!last ==> b'.reg.linger == b.reg.linger && b'.reg.lingerTasks == b.reg.lingerTasks)
    && b'.reg.readers == b.reg.readers && b'.reg.readerTasks == b.reg.readerTasks && b'.reg.stops == b.reg.stops
  }

  lemma LeaveDeparts(b: Bus, s: nat)
    requires s in b.table
    ensures Departs(b, LeaveStep(b, s), s)
  {
    var t := b.table[s].tenant;
    var reg := LeaveStep(b, s).reg;
    forall u ensures Peers(reg, u) == if u == t then Peers(b.reg, u) - {s} else Peers(b.reg, u) {}
  }

  /** A subscription joins: it is a new member with an empty queue, a pending stop is
      cancelled, and there is a reader, the same as before or a new one. */
  ghost predicate Arrives(b: Bus, b': Bus, t: int, channels: set<string>, s: nat) {
    && (forall u :: Peers(b'.reg, u) == if u == t then Peers(b.reg, u) + {s} else Peers(b.reg, u))
    && b'.table == b.table[s := Sub(t, channels, [], false, [], |TenantOf(b, t).fanned|, None)]
    && t !in b'.reg.linger && b'.reg.linger == b.reg.linger - {t}
    && (t in b.reg.linger && b.reg.linger[t] in b.reg.lingerTasks ==>
          var l := b.reg.linger[t];
          b'.reg.lingerTasks == b.reg.lingerTasks[l := b.reg.lingerTasks[l].(cancelled := true)])
    && (t !in b.reg.linger ==> b'.reg.lingerTasks == b.reg.lingerTasks)
    && t in b'.reg.readers && b'.tenants == b.tenants
    && (t in b.reg.readers ==>
          && b'.reg.readers == b.reg.readers && b'.reg.stops == b.reg.stops
          && b'.reg.readerTasks == b.reg.readerTasks && b'.feeds == b.feeds)
    && (t !in b.reg.readers ==>
          var r := b'.reg.readers[t];
          && b'.reg.readers == b.reg.readers[t := r] && t in b'.reg.stops
          && b'.reg.stops == b.reg.stops[t := b'.reg.stops[t]]
          && b'.reg.readerTasks == b.reg.readerTasks[r := ReaderTask(t, b'.reg.stops[t], false)]
          && b'.feeds == b.feeds[r := Feed(None, Idle, |TenantOf(b, t).fanned|)])
  }

  lemma JoinArrives(b: Bus, t: int, channels: set<string>)
    ensures Arrives(b, JoinStep(b, t, channels), t, channels, b.reg.next)
  {
    var reg := JoinStep(b, t, channels).reg;
    forall u ensures Peers(reg, u) == if u == t then Peers(b.reg, u) + {b.reg.next} else Peers(b.reg, u) {}
    LingersCancelled(b.reg, t);
  }

  lemma LingersCancelled(g: Registry, t: int)
    ensures var tasks := CancelLingers(g.lingerTasks, AsSet(Pop(g.linger, t)));
            tasks == if t in g.linger && g.linger[t] in g.lingerTasks
                     then g.lingerTasks[g.linger[t] := g.lingerTasks[g.linger[t]].(cancelled := true)]
                     else g.lingerTasks
  {
  }

  /** So in every run: what leaves is gone, and the last one to leave starts the only
      pending stop of the reader it leaves behind. */
  lemma LeavingLeaves(states: seq<Bus>, steps: seq<Step>, c: Config, s: nat)
    requires Run(states, steps, c) && c.maxlen >= 1 && steps != [] && steps[|steps| - 1] == Leave(s)
    ensures var b, b' := states[|steps| - 1], states[|steps|];
            && s in b.table && Departs(b, b', s) && b'.table[s].left.Some?
            && var t := b.table[s].tenant;
               !b.reg.closed && Peers(b.reg, t) == {s} ==>
                 && t in b'.reg.readers && LiveReaders(b'.reg, t) == {b'.reg.readers[t]}
                 && t in b'.reg.linger && PendingLingers(b'.reg, t) == {b'.reg.linger[t]}
  {
    var n := |steps| - 1;
    var b, b' := states[n], states[n + 1];
    RunPrefix(states, steps, c);
    RunKeepsBusOk(states[..n + 1], steps[..n], c);
    RunKeepsBusOk(states, steps, c);
    LeaveDeparts(b, s);
    if !b.reg.closed && Peers(b.reg, b.table[s].tenant) == {s} { LastOneWaits(b.reg, b'.reg, b.table[s].tenant); }
  }

  lemma LastOneWaits(g: Registry, g': Registry, t: int)
    requires Inv(g) && Inv(g') && !g.closed && !g'.closed && t in g.subs && g'.readers == g.readers && t in g'.linger
    ensures t in g'.readers && LiveReaders(g', t) == {g'.readers[t]} && PendingLingers(g', t) == {g'.linger[t]}
  {
    OneReader(g', t);
    OneLinger(g', t);
  }

  /** A subscription that has left gets nothing more. */
  predicate Frozen(sub: Sub, sub': Sub) {
    sub'.left == sub.left && Received(sub') == Received(sub) && sub'.dropped == sub.dropped
  }

  lemma StepKeepsFrozen(b: Bus, c: Config, step: Step, s: nat)
    requires Membership(b.reg, b.table) && CanStep(b, c, step) && s in b.table && b.table[s].left.Some?
    ensures s in Apply(b, c, step).table && Frozen(b.table[s], Apply(b, c, step).table[s])
  {
    match step
    case Consume(q) => ConsumeKeepsFrozen(b, q, s);
    case Deliver(r) => assert s !in Peers(b.reg, b.reg.readerTasks[r].tenant);
    case Leave(q) => assert s !in Peers(b.reg, b.table[s].tenant);
    case _ =>
  }

  lemma ConsumeKeepsFrozen(b: Bus, q: nat, s: nat)
    requires q in b.table && b.table[q].queue != [] && s in b.table
    ensures Frozen(b.table[s], ConsumeStep(b, q).table[s])
  {
    if q == s { assert b.table[s].queue == [b.table[s].queue[0]] + b.table[s].queue[1..]; }
  }

  /** No later step of any run changes what it received. */
  lemma {:induction false} LeftForGood(states: seq<Bus>, steps: seq<Step>, c: Config, i: nat, s: nat)
    requires Run(states, steps, c) && c.maxlen >= 1 && i <= |steps|
    requires s in states[i].table && states[i].table[s].left.Some?
    ensures s in states[|steps|].table && Frozen(states[i].table[s], states[|steps|].table[s])
    decreases |steps|
  {
    if i < |steps| {
      var n := |steps| - 1;
      RunPrefix(states, steps, c);
      LeftForGood(states[..n + 1], steps[..n], c, i, s);
      RunKeepsBusOk(states[..n + 1], steps[..n], c);
      StepKeepsFrozen(states[n], c, steps[n], s);
    }
  }

  ghost predicate Chained(states: seq<Bus>, steps: seq<Step>, c: Config) {
    |states| == |steps| + 1 && forall i | 0 <= i < |steps| :: StepsTo(states[i], c, steps[i], states[i + 1])
  }

  /** From every state a subscription can consume what is queued for it, oldest first,
      which changes nothing else. */
  lemma {:induction false} QueueCanBeDrained(b: Bus, c: Config, s: nat) returns (states: seq<Bus>, steps: seq<Step>)
    requires s in b.table
    ensures Chained(states, steps, c) && states[0] == b && |steps| == |b.table[s].queue|
    ensures forall i | 0 <= i < |steps| :: steps[i] == Consume(s)
    ensures var sub := b.table[s];
            states[|steps|] == b.(table := b.table[s := sub.(queue := [], consumed := sub.consumed + sub.queue)])
    decreases |b.table[s].queue|
  {
    var sub := b.table[s];
    if sub.queue == [] {
      states, steps := [b], [];
      assert sub.consumed + sub.queue == sub.consumed;
      assert b.table[s := sub] == b.table;
    } else {
      var next := Apply(b, c, Consume(s));
      var later, more := QueueCanBeDrained(next, c, s);
      states, steps := [b] + later, [Consume(s)] + more;
      assert StepsTo(b, c, Consume(s), next);
      forall i | 0 <= i < |steps| ensures StepsTo(states[i], c, steps[i], states[i + 1]) {
        if i > 0 { assert StepsTo(later[i - 1], c, more[i - 1], later[i]); }
      }
      assert sub.consumed + sub.queue == (sub.consumed + [sub.queue[0]]) + sub.queue[1..];
    }
  }

  // ------------------------------------------------------ readers that were told to stop

  /** In every run: a linger task that wakes and goes on undisturbed stops the reader of
      its business if nobody is subscribed, and nothing else. */
  lemma WakingStops(states: seq<Bus>, steps: seq<Step>, c: Config, l: nat)
    requires Run(states, steps, c) && |steps| >= 2
    requires steps[|steps| - 2..] == [Registered(DoWake(l)), Registered(DoStopReader(l))]
    ensures var g, g' := states[|steps| - 2].reg, states[|steps|].reg;
            l in g.lingerTasks && Stops(g, g', g.lingerTasks[l].tenant)
    ensures states[|steps|] == states[|steps| - 2].(reg := states[|steps|].reg)
  {
    var n := |steps|;
    assert steps[n - 2] == steps[n - 2..][0] && steps[n - 1] == steps[n - 2..][1];
    assert StepsTo(states[n - 2], c, steps[n - 2], states[n - 1]);
    assert StepsTo(states[n - 1], c, steps[n - 1], states[n - 1 + 1]);
    WakeStops(states[n - 2].reg, l);
  }

  /** And closing undisturbed tells and cancels every reader, and ends every
      subscription. */
  lemma ClosingEnds(states: seq<Bus>, steps: seq<Step>, c: Config)
    requires Run(states, steps, c) && |steps| >= 3
    requires steps[|steps| - 3..] == [Registered(DoMarkClosed), Registered(DoClear), Registered(DoCancelAll)]
    ensures Closes(states[|steps| - 3].reg, states[|steps|].reg)
    ensures var b, b' := states[|steps| - 3], states[|steps|];
            b'.table.Keys == b.table.Keys && forall s | s in b'.table :: b'.table[s].left.Some?
  {
    var n := |steps|;
    assert steps[n - 3] == steps[n - 3..][0] && steps[n - 2] == steps[n - 3..][1] && steps[n - 1] == steps[n - 3..][2];
    assert StepsTo(states[n - 3], c, steps[n - 3], states[n - 3 + 1]);
    assert StepsTo(states[n - 2], c, steps[n - 2], states[n - 2 + 1]);
    assert StepsTo(states[n - 1], c, steps[n - 1], states[n - 1 + 1]);
    ClosingCloses(states[n - 3].reg);
  }

  /** The bus was closed, or the reader's stop signal is set, or it was cancelled. */
  predicate Told(b: Bus, r: nat) {
    && r in b.reg.readerTasks && r in b.feeds
    && (b.reg.closed || b.reg.readerTasks[r].stop in b.reg.raised || b.reg.readerTasks[r].cancelled)
  }

  lemma ActionKeepsTold(g: Registry, a: Action, r: nat)
    requires Enabled(g, a) && r in g.readerTasks && g.next > r
    ensures var g' := Next(g, a);
            && r in g'.readerTasks && g'.readerTasks[r].stop == g.readerTasks[r].stop
            && (g.readerTasks[r].cancelled ==> g'.readerTasks[r].cancelled)
            && (g.closed ==> g'.closed) && g.raised <= g'.raised
  {
  }

  lemma ToldByStep(b: Bus, c: Config, step: Step, r: nat)
    requires BusOk(b) && CanStep(b, c, step) && Told(b, r)
    ensures Told(Apply(b, c, step), r)
  {
    match step
    case Join(t, _) => ActionKeepsTold(b.reg, DoSubscribe(t), r);
    case Leave(s) => ActionKeepsTold(b.reg, DoUnsubscribe(b.table[s].tenant, s), r);
    case Registered(a) => ActionKeepsTold(b.reg, a, r);
    case _ =>
  }

  /** It stays told, does not read again, and nothing happens to it once it is idle,
      as it is after a delivery. */
  lemma StepKeepsTold(b: Bus, c: Config, step: Step, r: nat)
    requires BusOk(b) && CanStep(b, c, step) && Told(b, r)
    ensures Told(Apply(b, c, step), r) && step != StartRead(r)
    ensures b.feeds[r].phase == Idle ==> Apply(b, c, step).feeds[r] == b.feeds[r] && step != Deliver(r)
    ensures step == Deliver(r) ==> Apply(b, c, step).feeds[r].phase == Idle
  {
    ToldByStep(b, c, step, r);
    FeedOf(b, c, step, r);
  }

  lemma FeedOf(b: Bus, c: Config, step: Step, r: nat)
    requires r < b.reg.next && CanStep(b, c, step) && r in b.feeds
    ensures r in Apply(b, c, step).feeds
    ensures b.feeds[r].phase == Idle && step != StartRead(r) ==>
              Apply(b, c, step).feeds[r] == b.feeds[r] && step != Deliver(r)
    ensures step == Deliver(r) ==> Apply(b, c, step).feeds[r].phase == Idle
  {
    var b' := Apply(b, c, step);
    match step
    case Join(t, channels) => assert b' == JoinStep(b, t, channels);
    case Leave(s) => assert b'.feeds == b.feeds;
    case Registered(a) => assert b'.feeds == b.feeds;
    case Publish(_, _) => assert b'.feeds == b.feeds;
    case StartRead(q) => assert b' == StartReadStep(b, q);
    case Serve(q) => assert b' == ServeStep(b, q);
    case ReadFails(q) => assert b' == ReadFailsStep(b, q);
    case Deliver(q) => assert b'.feeds == b.feeds[q := Resumed(b.feeds[q])];
    case Consume(_) => assert b'.feeds == b.feeds;
  }

  /** From step i to step n the reader starts no read; if it was idle at i, it delivers
      nothing either and stays as it is. */
  ghost predicate EndsBy(states: seq<Bus>, steps: seq<Step>, i: nat, n: nat, r: nat)
    requires |states| == |steps| + 1 && i <= n <= |steps| && Told(states[i], r)
  {
    && Told(states[n], r)
    && (forall k | i <= k < n :: steps[k] != StartRead(r))
    && (states[i].feeds[r].phase == Idle ==>
          states[n].feeds[r] == states[i].feeds[r] && forall k | i <= k < n :: steps[k] != Deliver(r))
  }

  lemma BusOkAt(states: seq<Bus>, steps: seq<Step>, c: Config, n: nat)
    requires Run(states, steps, c) && c.maxlen >= 1 && n <= |steps|
    ensures BusOk(states[n])
  {
    RunUpto(states, steps, c, n);
    RunKeepsBusOk(states[..n + 1], steps[..n], c);
  }

  lemma RunUpto(states: seq<Bus>, steps: seq<Step>, c: Config, n: nat)
    requires Run(states, steps, c) && n <= |steps|
    ensures Run(states[..n + 1], steps[..n], c)
  {
  }

  lemma {:induction false} ToldReaderEnds(states: seq<Bus>, steps: seq<Step>, c: Config, i: nat, n: nat, r: nat)
    requires Run(states, steps, c) && c.maxlen >= 1 && i <= n <= |steps| && Told(states[i], r)
    ensures EndsBy(states, steps, i, n, r)
    decreases n
  {
    if i < n {
      ToldReaderEnds(states, steps, c, i, n - 1, r);
      BusOkAt(states, steps, c, n - 1);
      StepEnds(states, steps, c, i, n - 1, r);
    }
  }

  lemma StepEnds(states: seq<Bus>, steps: seq<Step>, c: Config, i: nat, n: nat, r: nat)
    requires Run(states, steps, c) && i <= n < |steps| && Told(states[i], r)
    requires EndsBy(states, steps, i, n, r) && BusOk(states[n])
    ensures EndsBy(states, steps, i, n + 1, r)
    ensures steps[n] == Deliver(r) ==> states[n + 1].feeds[r].phase == Idle
  {
    assert StepsTo(states[n], c, steps[n], states[n + 1]);
    StepKeepsTold(states[n], c, steps[n], r);
  }

  /** In every run, a reader that was told to stop starts no further read, hands on at
      most the one reply it was waiting for, and after that stays as it is. */
  lemma ToldReadersEnd(states: seq<Bus>, steps: seq<Step>, c: Config, i: nat, j: nat, r: nat)
    requires Run(states, steps, c) && c.maxlen >= 1 && i <= j < |steps| && Told(states[i], r)
    ensures EndsBy(states, steps, i, |steps|, r)
    ensures steps[j] == Deliver(r) ==>
              && Told(states[j + 1], r) && states[|steps|].feeds[r] == states[j + 1].feeds[r]
              && forall k | j < k < |steps| :: steps[k] != Deliver(r)
  {
    ToldReaderEnds(states, steps, c, i, |steps|, r);
    if steps[j] == Deliver(r) {
      ToldReaderEnds(states, steps, c, i, j, r);
      BusOkAt(states, steps, c, j);
      StepEnds(states, steps, c, i, j, r);
      ToldReaderEnds(states, steps, c, j + 1, |steps|, r);
    }
  }
}
