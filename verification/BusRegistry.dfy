/**
 Who is subscribed and who is reading: the four dictionaries of `EventBus`, the
 tasks they point to, and every step that touches them.

 A section under the bus lock is one step, because no section awaits while it
 holds the lock. What `_stop_after_linger` and `aclose` do after they leave it is
 a step of its own (`StopReader`, `CancelAll`), so that other tasks may run in
 between. Tasks, stop signals and subscriptions are named by numbers that are
 never reused.
 */
module BusRegistry {
  import opened Options

  datatype ReaderTask = ReaderTask(tenant: int, stop: nat, cancelled: bool)

  /** Where `_stop_after_linger` is: asleep, past its lock section with the reader
      and signal it popped, or finished. */
  datatype Stage = Sleeping | Stopping(reader: Option<nat>, stop: Option<nat>) | Finished

  datatype LingerTask = LingerTask(tenant: int, cancelled: bool, stage: Stage)

  /** What `aclose` took out of the dictionaries and still has to cancel. */
  datatype Doomed = Doomed(readers: set<nat>, lingers: set<nat>)

  datatype Registry = Registry(
    closed: bool,
    subs: map<int, set<nat>>,
    readers: map<int, nat>,
    stops: map<int, nat>,
    linger: map<int, nat>,
    readerTasks: map<nat, ReaderTask>,
    lingerTasks: map<nat, LingerTask>,
    raised: set<nat>,
    doomed: Doomed,
    next: nat)

  const INITIAL := Registry(false, map[], map[], map[], map[], map[], map[], {}, Doomed({}, {}), 0)

  function Peers(g: Registry, t: int): set<nat> {
    if t in g.subs then g.subs[t] else {}
  }

  function Pop(m: map<int, nat>, t: int): Option<nat> {
    if t in m then Some(m[t]) else None
  }

  function Cancel(tasks: map<nat, ReaderTask>, which: set<nat>): map<nat, ReaderTask> {
    map r | r in tasks :: if r in which then tasks[r].(cancelled := true) else tasks[r]
  }

  function CancelLingers(tasks: map<nat, LingerTask>, which: set<nat>): map<nat, LingerTask> {
    map l | l in tasks :: if l in which then tasks[l].(cancelled := true) else tasks[l]
  }

  function AsSet(o: Option<nat>): set<nat> {
    if o.Some? then {o.value} else {}
  }

  function Range(m: map<int, nat>): set<nat> {
    set t | t in m :: m[t]
  }

  // ------------------------------------------------------------------ steps

  /** `subscribe` of subscription `g.next`. */
  function Subscribe(g: Registry, t: int): Registry {
    var starts := t !in g.readers;
    g.(subs := g.subs[t := Peers(g, t) + {g.next}],
       linger := g.linger - {t},
       lingerTasks := CancelLingers(g.lingerTasks, AsSet(Pop(g.linger, t))),
       stops := if starts then g.stops[t := g.next + 1] else g.stops,
       readers := if starts then g.readers[t := g.next + 2] else g.readers,
       readerTasks := if starts then g.readerTasks[g.next + 2 := ReaderTask(t, g.next + 1, false)] else g.readerTasks,
       next := g.next + 3)
  }

  /** `unsubscribe` of subscription `s` of tenant `t`. */
  function Unsubscribe(g: Registry, t: int, s: nat): Registry {
    if t !in g.subs then g
    else
      var peers := g.subs[t] - {s};
      if peers != {} || g.closed then g.(subs := g.subs[t := peers])
      else g.(subs := g.subs - {t},
              linger := g.linger[t := g.next],
              lingerTasks := g.lingerTasks[g.next := LingerTask(t, false, Sleeping)],
              next := g.next + 1)
  }

  /** A linger task wakes only if nobody cancelled it. */
  predicate CanWake(g: Registry, l: nat) {
    l in g.lingerTasks && !g.lingerTasks[l].cancelled && g.lingerTasks[l].stage == Sleeping
  }

  /** The lock section of `_stop_after_linger`. */
  function Wake(g: Registry, l: nat): Registry
    requires CanWake(g, l)
  {
    var task := g.lingerTasks[l];
    var t := task.tenant;
    if Peers(g, t) != {} then
      g.(linger := g.linger - {t}, lingerTasks := g.lingerTasks[l := task.(stage := Finished)])
    else
      g.(linger := g.linger - {t},
         readers := g.readers - {t},
         stops := g.stops - {t},
         lingerTasks := g.lingerTasks[l := task.(stage := Stopping(Pop(g.readers, t), Pop(g.stops, t)))])
  }

  predicate CanStop(g: Registry, l: nat) {
    l in g.lingerTasks && g.lingerTasks[l].stage.Stopping?
  }

  /** The tail of `_stop_after_linger`, outside the lock. */
  function StopReader(g: Registry, l: nat): Registry
    requires CanStop(g, l)
  {
    var stage := g.lingerTasks[l].stage;
    g.(raised := g.raised + AsSet(stage.stop),
       readerTasks := Cancel(g.readerTasks, AsSet(stage.reader)),
       lingerTasks := g.lingerTasks[l := g.lingerTasks[l].(stage := Finished)])
  }

  /** `aclose`, before it takes the lock. */
  function MarkClosed(g: Registry): Registry { g.(closed := true) }

  /** The lock section of `aclose`. */
  function Clear(g: Registry): Registry
    requires g.closed
  {
    g.(raised := g.raised + Range(g.stops),
       doomed := Doomed(g.doomed.readers + Range(g.readers), g.doomed.lingers + Range(g.linger)),
       readers := map[], stops := map[], linger := map[], subs := map[])
  }

  /** The rest of `aclose`: it cancels the tasks it took out. */
  function CancelAll(g: Registry): Registry {
    g.(readerTasks := Cancel(g.readerTasks, g.doomed.readers),
       lingerTasks := CancelLingers(g.lingerTasks, g.doomed.lingers),
       doomed := Doomed({}, {}))
  }

  /** One atomic step of some task. */
  datatype Action =
    | DoSubscribe(t: int)
    | DoUnsubscribe(t: int, s: nat)
    | DoWake(l: nat)
    | DoStopReader(l: nat)
    | DoMarkClosed
    | DoClear
    | DoCancelAll

  predicate Enabled(g: Registry, a: Action) {
    match a
    case DoWake(l) => CanWake(g, l)
    case DoStopReader(l) => CanStop(g, l)
    case DoClear => g.closed
    case _ => true
  }

  function Next(g: Registry, a: Action): Registry
    requires Enabled(g, a)
  {
    match a
    case DoSubscribe(t) => Subscribe(g, t)
    case DoUnsubscribe(t, s) => Unsubscribe(g, t, s)
    case DoWake(l) => Wake(g, l)
    case DoStopReader(l) => StopReader(g, l)
    case DoMarkClosed => MarkClosed(g)
    case DoClear => Clear(g)
    case DoCancelAll => CancelAll(g)
  }

  // -------------------------------------------------------------- lifecycle

  /** Linger task `l` has popped reader `r` and is about to stop it. */
  predicate Carries(g: Registry, l: nat, r: nat) {
    CanStop(g, l) && g.lingerTasks[l].stage.reader == Some(r)
  }

  ghost predicate Condemned(g: Registry, r: nat) {
    r in g.doomed.readers || exists l :: Carries(g, l, r)
  }

  /** Readers of `t` that keep reading: not cancelled, not told to stop, and not
      about to be. */
  ghost function LiveReaders(g: Registry, t: int): set<nat> {
    set r | r in g.readerTasks && g.readerTasks[r].tenant == t && !g.readerTasks[r].cancelled
            && g.readerTasks[r].stop !in g.raised && !Condemned(g, r)
  }

  /** Pending stops for `t`. */
  function PendingLingers(g: Registry, t: int): set<nat> {
    set l | l in g.lingerTasks && g.lingerTasks[l].tenant == t && CanWake(g, l)
  }

  /** The promise of the module, for one tenant of an open bus. */
  ghost predicate Lifecycle(g: Registry, t: int) {
    if t in g.subs then
      && g.subs[t] != {}
      && t in g.readers && LiveReaders(g, t) == {g.readers[t]}
      && t in g.stops && g.readerTasks[g.readers[t]].stop == g.stops[t] && g.stops[t] !in g.raised
      && PendingLingers(g, t) == {}
    else
      || (LiveReaders(g, t) == {} && PendingLingers(g, t) == {})
      || (&& t in g.readers && LiveReaders(g, t) == {g.readers[t]}
          && t in g.linger && PendingLingers(g, t) == {g.linger[t]})
  }

  // -------------------------------------------------------------- invariant

  ghost predicate NamesFresh(g: Registry) {
    && (forall r | r in g.readerTasks :: r < g.next && g.readerTasks[r].stop < g.next)
    && (forall l | l in g.lingerTasks :: l < g.next)
    && (forall s | s in g.raised :: s < g.next)
    && (forall r | r in g.doomed.readers :: r < g.next)
    && (forall r, q | r in g.readerTasks && q in g.readerTasks && r != q ::
          g.readerTasks[r].stop != g.readerTasks[q].stop)
  }

  ghost predicate ReadersRegistered(g: Registry) {
    && g.readers.Keys == g.stops.Keys
    && (forall t | t in g.readers ::
          && g.readers[t] in g.readerTasks
          && g.readerTasks[g.readers[t]] == ReaderTask(t, g.stops[t], false)
          && g.stops[t] !in g.raised
          && !Condemned(g, g.readers[t]))
    && (forall r | r in g.readerTasks ::
          || (g.readerTasks[r].tenant in g.readers && g.readers[g.readerTasks[r].tenant] == r)
          || g.readerTasks[r].cancelled
          || Condemned(g, r))
  }

  ghost predicate LingersRegistered(g: Registry) {
    && (forall t | t in g.linger ::
          && g.linger[t] in g.lingerTasks
          && g.lingerTasks[g.linger[t]] == LingerTask(t, false, Sleeping))
    && (forall l | CanWake(g, l) ::
          || (g.lingerTasks[l].tenant in g.linger && g.linger[g.lingerTasks[l].tenant] == l)
          || l in g.doomed.lingers)
    && (g.doomed.lingers != {} ==> g.closed && g.linger == map[])
  }

  /** What a linger task carries out of its lock section. */
  ghost predicate CarriedTogether(g: Registry) {
    forall l | CanStop(g, l) ::
      var stage := g.lingerTasks[l].stage;
      && (stage.reader.Some? <==> stage.stop.Some?)
      && (stage.reader.Some? ==>
            && stage.reader.value in g.readerTasks
            && g.readerTasks[stage.reader.value].stop == stage.stop.value)
  }

  ghost predicate OpenTenants(g: Registry) {
    !g.closed ==>
      && (forall t | t in g.subs :: g.subs[t] != {} && t in g.readers && t !in g.linger)
      && (forall t | t !in g.subs :: t in g.readers <==> t in g.linger)
  }

  ghost predicate Inv(g: Registry) {
    && NamesFresh(g)
    && ReadersRegistered(g)
    && LingersRegistered(g)
    && CarriedTogether(g)
    && OpenTenants(g)
  }

  /** Adding or finishing tasks that carry nothing condemns nobody. */
  lemma SameCondemned(g: Registry, g': Registry)
    requires g.doomed.readers == g'.doomed.readers
    requires forall l | CanStop(g, l) || CanStop(g', l) ::
               l in g.lingerTasks && l in g'.lingerTasks && g.lingerTasks[l].stage == g'.lingerTasks[l].stage
    ensures forall r :: Condemned(g, r) <==> Condemned(g', r)
  {
    forall l, r ensures Carries(g, l, r) <==> Carries(g', l, r) {}
  }

  lemma SubscribeKeepsNames(g: Registry, t: int)
    requires Inv(g)
    ensures NamesFresh(Subscribe(g, t)) && CarriedTogether(Subscribe(g, t))
  {
    SameCondemned(g, Subscribe(g, t));
  }

  lemma SubscribeKeepsReaders(g: Registry, t: int)
    requires NamesFresh(g) && ReadersRegistered(g) && CarriedTogether(g)
    ensures ReadersRegistered(Subscribe(g, t))
  {
    SameCondemned(g, Subscribe(g, t));
    CondemnedAreOld(g);
  }

  lemma CondemnedAreOld(g: Registry)
    requires NamesFresh(g) && CarriedTogether(g)
    ensures forall r: nat | Condemned(g, r) :: r < g.next
  {
    forall r: nat | Condemned(g, r) ensures r < g.next {
      if r !in g.doomed.readers { var l :| Carries(g, l, r); }
    }
  }

  lemma SubscribeKeepsLingers(g: Registry, t: int)
    requires Inv(g)
    ensures LingersRegistered(Subscribe(g, t))
  {
  }

  lemma SubscribeKeepsTenants(g: Registry, t: int)
    requires Inv(g)
    ensures OpenTenants(Subscribe(g, t))
  {
  }

  lemma SubscribeKeeps(g: Registry, t: int)
    requires Inv(g)
    ensures Inv(Subscribe(g, t))
  {
    SubscribeKeepsNames(g, t);
    SubscribeKeepsReaders(g, t);
    SubscribeKeepsLingers(g, t);
    SubscribeKeepsTenants(g, t);
  }

  lemma UnsubscribeKeepsNames(g: Registry, t: int, s: nat)
    requires Inv(g)
    ensures NamesFresh(Unsubscribe(g, t, s)) && CarriedTogether(Unsubscribe(g, t, s))
  {
    SameCondemned(g, Unsubscribe(g, t, s));
  }

  lemma UnsubscribeKeepsReaders(g: Registry, t: int, s: nat)
    requires Inv(g)
    ensures ReadersRegistered(Unsubscribe(g, t, s))
  {
    SameCondemned(g, Unsubscribe(g, t, s));
  }

  lemma UnsubscribeKeepsLingers(g: Registry, t: int, s: nat)
    requires Inv(g)
    ensures LingersRegistered(Unsubscribe(g, t, s))
  {
  }

  lemma UnsubscribeKeepsTenants(g: Registry, t: int, s: nat)
    requires Inv(g)
    ensures OpenTenants(Unsubscribe(g, t, s))
  {
  }

  lemma UnsubscribeKeeps(g: Registry, t: int, s: nat)
    requires Inv(g)
    ensures Inv(Unsubscribe(g, t, s))
  {
    UnsubscribeKeepsNames(g, t, s);
    UnsubscribeKeepsReaders(g, t, s);
    UnsubscribeKeepsLingers(g, t, s);
    UnsubscribeKeepsTenants(g, t, s);
  }

  /** Waking condemns exactly the reader of the tenant, if nobody came back. */
  lemma WakeCondemns(g: Registry, l: nat)
    requires Inv(g) && CanWake(g, l)
    ensures var t := g.lingerTasks[l].tenant;
            forall r :: Condemned(Wake(g, l), r)
                        <==> Condemned(g, r) || (Peers(g, t) == {} && t in g.readers && r == g.readers[t])
  {
    var g' := Wake(g, l);
    var t := g.lingerTasks[l].tenant;
    forall k, r ensures Carries(g', k, r)
                        <==> Carries(g, k, r) || (k == l && Peers(g, t) == {} && t in g.readers && r == g.readers[t]) {}
    forall r | Condemned(g, r) ensures Condemned(g', r) {}
    if t in g.readers && Peers(g, t) == {} {
      assert Carries(g', l, g.readers[t]);
    }
  }

  lemma WakeKeepsNames(g: Registry, l: nat)
    requires Inv(g) && CanWake(g, l)
    ensures NamesFresh(Wake(g, l)) && CarriedTogether(Wake(g, l))
  {
    WakeCondemns(g, l);
  }

  lemma WakeKeepsReaders(g: Registry, l: nat)
    requires Inv(g) && CanWake(g, l)
    ensures ReadersRegistered(Wake(g, l))
  {
    WakeCondemns(g, l);
  }

  lemma WakeKeepsLingers(g: Registry, l: nat)
    requires Inv(g) && CanWake(g, l)
    ensures LingersRegistered(Wake(g, l))
  {
  }

  lemma WakeKeepsTenants(g: Registry, l: nat)
    requires Inv(g) && CanWake(g, l)
    ensures OpenTenants(Wake(g, l))
  {
  }

  lemma WakeKeeps(g: Registry, l: nat)
    requires Inv(g) && CanWake(g, l)
    ensures Inv(Wake(g, l))
  {
    WakeKeepsNames(g, l);
    WakeKeepsReaders(g, l);
    WakeKeepsLingers(g, l);
    WakeKeepsTenants(g, l);
  }

  /** Stopping carries out one condemnation and starts none. */
  lemma StopReaderCondemns(g: Registry, l: nat)
    requires CanStop(g, l)
    ensures forall r: nat :: Condemned(StopReader(g, l), r) ==> Condemned(g, r)
    ensures forall r: nat :: Condemned(g, r) ==>
              Condemned(StopReader(g, l), r) || g.lingerTasks[l].stage.reader == Some(r)
    ensures forall r: nat | g.lingerTasks[l].stage.reader == Some(r) :: Condemned(g, r)
  {
    var g' := StopReader(g, l);
    forall r: nat, k: nat | Carries(g', k, r) ensures Carries(g, k, r) {}
    forall r: nat, k: nat | Carries(g, k, r)
      ensures Carries(g', k, r) || (k == l && g.lingerTasks[l].stage.reader == Some(r)) {}
    forall r: nat | g.lingerTasks[l].stage.reader == Some(r) ensures Condemned(g, r) {
      assert Carries(g, l, r);
    }
  }

  lemma StopReaderKeepsNames(g: Registry, l: nat)
    requires Inv(g) && CanStop(g, l)
    ensures NamesFresh(StopReader(g, l)) && CarriedTogether(StopReader(g, l))
  {
  }

  lemma StopReaderKeepsReaders(g: Registry, l: nat)
    requires NamesFresh(g) && ReadersRegistered(g) && CarriedTogether(g) && CanStop(g, l)
    ensures ReadersRegistered(StopReader(g, l))
  {
    StopReaderCondemns(g, l);
  }

  lemma StopReaderKeepsLingers(g: Registry, l: nat)
    requires Inv(g) && CanStop(g, l)
    ensures LingersRegistered(StopReader(g, l)) && OpenTenants(StopReader(g, l))
  {
    var g' := StopReader(g, l);
    forall k ensures CanWake(g', k) <==> CanWake(g, k) {}
  }

  lemma StopReaderKeeps(g: Registry, l: nat)
    requires Inv(g) && CanStop(g, l)
    ensures Inv(StopReader(g, l))
  {
    StopReaderKeepsNames(g, l);
    StopReaderKeepsReaders(g, l);
    StopReaderKeepsLingers(g, l);
  }

  lemma MarkClosedKeeps(g: Registry)
    requires Inv(g)
    ensures Inv(MarkClosed(g))
  {
    SameCondemned(g, MarkClosed(g));
  }

  lemma ClearKeeps(g: Registry)
    requires Inv(g) && g.closed
    ensures Inv(Clear(g))
  {
    var g' := Clear(g);
    forall l, r ensures Carries(g, l, r) <==> Carries(g', l, r) {}
    forall s | s in Range(g.stops) ensures s < g.next {
      var t :| t in g.stops && g.stops[t] == s;
      assert g.readerTasks[g.readers[t]].stop == s;
    }
    assert NamesFresh(g');
    assert ReadersRegistered(g');
    assert LingersRegistered(g');
    assert CarriedTogether(g');
    assert OpenTenants(g');
  }

  lemma CancelAllKeepsReaders(g: Registry)
    requires ReadersRegistered(g)
    ensures ReadersRegistered(CancelAll(g))
  {
    var g' := CancelAll(g);
    forall l, r ensures Carries(g, l, r) <==> Carries(g', l, r) {}
    forall r ensures Condemned(g, r) <==> r in g.doomed.readers || Condemned(g', r) {}
  }

  lemma CancelAllKeepsRest(g: Registry)
    requires NamesFresh(g) && LingersRegistered(g) && CarriedTogether(g) && OpenTenants(g)
    ensures var g' := CancelAll(g); NamesFresh(g') && LingersRegistered(g') && CarriedTogether(g') && OpenTenants(g')
  {
  }

  lemma CancelAllKeeps(g: Registry)
    requires Inv(g)
    ensures Inv(CancelAll(g))
  {
    CancelAllKeepsReaders(g);
    CancelAllKeepsRest(g);
  }

  lemma NextKeeps(g: Registry, a: Action)
    requires Inv(g) && Enabled(g, a)
    ensures Inv(Next(g, a))
  {
    match a
    case DoSubscribe(t) => SubscribeKeeps(g, t);
    case DoUnsubscribe(t, s) => UnsubscribeKeeps(g, t, s);
    case DoWake(l) => WakeKeeps(g, l);
    case DoStopReader(l) => StopReaderKeeps(g, l);
    case DoMarkClosed => MarkClosedKeeps(g);
    case DoClear => ClearKeeps(g);
    case DoCancelAll => CancelAllKeeps(g);
  }

  lemma OneReader(g: Registry, t: int)
    requires Inv(g)
    ensures LiveReaders(g, t) == if t in g.readers then {g.readers[t]} else {}
  {
    forall r ensures r in LiveReaders(g, t) <==> t in g.readers && r == g.readers[t] {}
  }

  lemma OneLinger(g: Registry, t: int)
    requires Inv(g) && !g.closed
    ensures PendingLingers(g, t) == if t in g.linger then {g.linger[t]} else {}
  {
    forall l ensures l in PendingLingers(g, t) <==> t in g.linger && l == g.linger[t] {}
  }

  lemma InvGivesLifecycle(g: Registry, t: int)
    requires Inv(g) && !g.closed
    ensures Lifecycle(g, t)
  {
    OneReader(g, t);
    OneLinger(g, t);
  }

  // ------------------------------------------------------------- whole runs

  predicate StepsTo(g: Registry, a: Action, g': Registry) { Enabled(g, a) && g' == Next(g, a) }

  /** A run: the actions of one `start … aclose` lifetime, in any interleaving. */
  ghost predicate Run(states: seq<Registry>, actions: seq<Action>) {
    && |states| == |actions| + 1
    && states[0] == INITIAL
    && forall i | 0 <= i < |actions| :: StepsTo(states[i], actions[i], states[i + 1])
  }

  lemma {:induction false} RunKeepsInv(states: seq<Registry>, actions: seq<Action>)
    requires Run(states, actions)
    ensures Inv(states[|actions|])
  {
    if actions != [] {
      var n := |actions| - 1;
      assert StepsTo(states[n], actions[n], states[n + 1]);
      forall i | 0 <= i < n ensures StepsTo(states[..n + 1][i], actions[..n][i], states[..n + 1][i + 1]) {
        assert StepsTo(states[i], actions[i], states[i + 1]);
      }
      RunKeepsInv(states[..n + 1], actions[..n]);
      NextKeeps(states[n], actions[n]);
    }
  }

  /** In every reachable state of an open bus every tenant is in one of the
      promised situations. */
  lemma LifecycleOfEveryRun(states: seq<Registry>, actions: seq<Action>, t: int)
    requires Run(states, actions)
    ensures !states[|actions|].closed ==> Lifecycle(states[|actions|], t)
  {
    RunKeepsInv(states, actions);
    if !states[|actions|].closed { InvGivesLifecycle(states[|actions|], t); }
  }

  /** The branch of `_stop_after_linger` for "somebody came back" is never needed:
      whoever comes back has already cancelled the linger task. */
  lemma NobodyCameBack(states: seq<Registry>, actions: seq<Action>, l: nat)
    requires Run(states, actions)
    requires !states[|actions|].closed && CanWake(states[|actions|], l)
    ensures Peers(states[|actions|], states[|actions|].lingerTasks[l].tenant) == {}
  {
    RunKeepsInv(states, actions);
  }

  /** Stops and cancels carried out after the lock was released reach no reader
      that is in the dictionaries, whatever ran in between. */
  lemma LateStopHitsOnlyOldReaders(states: seq<Registry>, actions: seq<Action>, a: Action, t: int)
    requires Run(states, actions)
    requires a.DoStopReader? || a.DoCancelAll?
    requires var g := states[|actions|]; Enabled(g, a) && t in g.readers
    ensures var g, g' := states[|actions|], Next(states[|actions|], a);
            && t in g'.readers && g'.readers[t] == g.readers[t]
            && g.readers[t] in g.readerTasks && g.readers[t] in g'.readerTasks
            && g'.readerTasks[g.readers[t]] == g.readerTasks[g.readers[t]]
            && t in g'.stops && g'.stops[t] == g.stops[t] && g'.stops[t] !in g'.raised
            && LiveReaders(g', t) == {g.readers[t]}
  {
    var g := states[|actions|];
    RunKeepsInv(states, actions);
    NextKeeps(g, a);
    OneReader(Next(g, a), t);
  }

  /** `aclose` leaves no reader reading: after its last step every reader that
      was registered when it took the lock is cancelled. */
  lemma CloseStopsEveryReader(g: Registry, r: nat)
    requires Inv(g) && g.closed && r in g.readerTasks
    ensures var g' := CancelAll(Clear(g));
            r in g'.readerTasks && (g'.readerTasks[r].cancelled || exists l :: Carries(g', l, r))
  {
    var g1 := Clear(g);
    var g2 := CancelAll(g1);
    if !g2.readerTasks[r].cancelled {
      assert Condemned(g, r) && r !in g.doomed.readers;
      var l :| Carries(g, l, r);
      assert Carries(g2, l, r);
    }
  }

  // ------------------------------------------------------------ stop signals

  /** Whoever is cancelled, or about to be by `aclose`, has been told to stop: the
      signal is needed because a blocked read may swallow the cancellation. */
  ghost predicate Signalled(g: Registry) {
    && (forall r | r in g.readerTasks && g.readerTasks[r].cancelled :: g.readerTasks[r].stop in g.raised)
    && (forall r | r in g.doomed.readers && r in g.readerTasks :: g.readerTasks[r].stop in g.raised)
  }

  lemma StopReaderKeepsSignalled(g: Registry, l: nat)
    requires CarriedTogether(g) && Signalled(g) && CanStop(g, l)
    ensures Signalled(StopReader(g, l))
  {
  }

  lemma ClearKeepsSignalled(g: Registry)
    requires ReadersRegistered(g) && Signalled(g) && g.closed
    ensures Signalled(Clear(g))
  {
    forall r | r in Range(g.readers) && r in g.readerTasks ensures g.readerTasks[r].stop in Range(g.stops) {
      var t :| t in g.readers && g.readers[t] == r;
      assert t in g.stops;
    }
  }

  lemma NextKeepsSignalled(g: Registry, a: Action)
    requires Inv(g) && Signalled(g) && Enabled(g, a)
    ensures Signalled(Next(g, a))
  {
    match a
    case DoStopReader(l) => StopReaderKeepsSignalled(g, l);
    case DoClear => ClearKeepsSignalled(g);
    case _ =>
  }

  lemma {:induction false} RunKeepsSignalled(states: seq<Registry>, actions: seq<Action>)
    requires Run(states, actions)
    ensures Signalled(states[|actions|])
  {
    if actions != [] {
      var n := |actions| - 1;
      assert StepsTo(states[n], actions[n], states[n + 1]);
      forall i | 0 <= i < n ensures StepsTo(states[..n + 1][i], actions[..n][i], states[..n + 1][i + 1]) {
        assert StepsTo(states[i], actions[i], states[i + 1]);
      }
      RunKeepsInv(states[..n + 1], actions[..n]);
      RunKeepsSignalled(states[..n + 1], actions[..n]);
      NextKeepsSignalled(states[n], actions[n]);
    }
  }

  /** In every run a reader that was cancelled finds its stop signal set. */
  lemma CancelledWasTold(states: seq<Registry>, actions: seq<Action>, r: nat)
    requires Run(states, actions) && r in states[|actions|].readerTasks && states[|actions|].readerTasks[r].cancelled
    ensures states[|actions|].readerTasks[r].stop in states[|actions|].raised
  {
    RunKeepsSignalled(states, actions);
  }

  // ----------------------------------------------------- what a stop amounts to

  /** A tenant nobody came back to loses its reader, which is told and cancelled; other
      tenants, and one somebody came back to, keep theirs. */
  ghost predicate Stops(g: Registry, g': Registry, t: int) {
    var gone := Peers(g, t) == {};
    && g'.subs == g.subs && g'.linger == g.linger - {t}
    && g'.readers == (if gone then g.readers - {t} else g.readers)
    && g'.stops == (if gone then g.stops - {t} else g.stops)
    && (gone && t in g.readers && g.readers[t] in g.readerTasks ==>
          g'.readerTasks
          == g.readerTasks[g.readers[t] := g.readerTasks[g.readers[t]].(cancelled := true)])
    && g'.raised == g.raised + (if gone && t in g.stops then {g.stops[t]} else {})
    && (!gone || t !in g.readers ==> g'.readerTasks == g.readerTasks)
  }

  lemma WakeStops(g: Registry, l: nat)
    requires CanWake(g, l)
    ensures var g' := Wake(g, l); Stops(g, if CanStop(g', l) then StopReader(g', l) else g', g.lingerTasks[l].tenant)
  {
    var t := g.lingerTasks[l].tenant;
    CancelOne(g.readerTasks, Pop(g.readers, t));
  }

  lemma CancelOne(tasks: map<nat, ReaderTask>, which: Option<nat>)
    ensures Cancel(tasks, AsSet(which))
            == if which.Some? && which.value in tasks
               then tasks[which.value := tasks[which.value].(cancelled := true)] else tasks
  {
  }

  /** Closing tells and cancels every reader and every sleeping stop that was
      registered, and leaves no subscriber. */
  ghost predicate Closes(g: Registry, g': Registry) {
    && g'.closed && g'.subs == map[] && g'.readers == map[] && g'.stops == map[] && g'.linger == map[]
    && (forall t | t in g.stops :: g.stops[t] in g'.raised)
    && (forall t | t in g.readers && g.readers[t] in g.readerTasks ::
          g.readers[t] in g'.readerTasks && g'.readerTasks[g.readers[t]].cancelled)
    && (forall t | t in g.linger && g.linger[t] in g.lingerTasks ::
          g.linger[t] in g'.lingerTasks && g'.lingerTasks[g.linger[t]].cancelled)
  }

  lemma ClosingCloses(g: Registry)
    ensures Closes(g, CancelAll(Clear(MarkClosed(g))))
  {
  }
}
