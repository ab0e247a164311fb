/**
 End to end: what a client that comes back is sent, over whole runs of the bus.
 Its subscription starts first, then the replay is read from the stream, then the
 generator drains the queue that the shared reader fills.

 A reader may skip positions: entries published before its first non-empty read,
 and trimmed ones. So what a queue carries is first described by the positions
 fanned out, and as a piece of the stream only where nothing is skipped.
 */
module Reconnection {
  import opened Options
  import opened StreamIds
  import opened Channels
  import opened Streams
  import opened BusModel
  import BusRegistry

  // -------------------------------------------------- events at some positions

  predicate WantedAt(log: seq<Entry>, p: nat, mine: set<string>)
    requires p < |log|
  {
    Wants(mine, ParseEntry(log[p]).channels)
  }

  /** The wanted events among the entries at those positions of [lo, hi) that are
      in `at`. */
  function Picked(log: seq<Entry>, at: set<nat>, lo: nat, hi: nat, mine: set<string>): seq<Event>
    requires hi <= |log|
    decreases hi - lo
  {
    if lo >= hi then []
    else if lo in at && WantedAt(log, lo, mine) then [ParseEntry(log[lo])] + Picked(log, at, lo + 1, hi, mine)
    else Picked(log, at, lo + 1, hi, mine)
  }

  /** No wanted entry before `seen` is at one of the positions. */
  predicate NoneBefore(log: seq<Entry>, at: set<nat>, seen: nat, mine: set<string>)
    requires seen <= |log|
  {
    forall p | 0 <= p < seen && p in at :: !WantedAt(log, p, mine)
  }

  /** Every wanted entry of [lo, hi) is at one of the positions. */
  predicate AllPicked(log: seq<Entry>, at: set<nat>, lo: nat, hi: nat, mine: set<string>)
    requires hi <= |log|
  {
    forall p: nat | lo <= p < hi && WantedAt(log, p, mine) :: p in at
  }

  lemma NotPicked(log: seq<Entry>, at: set<nat>, lo: nat, hi: nat, mine: set<string>)
    requires lo < hi <= |log| && (lo !in at || !WantedAt(log, lo, mine))
    ensures Picked(log, at, lo, hi, mine) == Picked(log, at, lo + 1, hi, mine)
  {
  }

  lemma SameAfter(head: seq<Event>, a: seq<Event>, b: seq<Event>)
    ensures head + a == head + b <==> a == b
  {
    if head + a == head + b { assert a == (head + a)[|head|..] == (head + b)[|head|..] == b; }
  }

  lemma {:induction false} PickedSplit(log: seq<Entry>, at: set<nat>, lo: nat, mid: nat, hi: nat, mine: set<string>)
    requires lo <= mid <= hi <= |log|
    ensures Picked(log, at, lo, hi, mine) == Picked(log, at, lo, mid, mine) + Picked(log, at, mid, hi, mine)
    decreases mid - lo
  {
    if lo < mid {
      PickedSplit(log, at, lo + 1, mid, hi, mine);
      ConsConcat(ParseEntry(log[lo]), Picked(log, at, lo + 1, mid, mine), Picked(log, at, mid, hi, mine));
    }
  }

  lemma {:induction false} PickedNone(log: seq<Entry>, at: set<nat>, lo: nat, hi: nat, mine: set<string>)
    requires lo <= hi <= |log|
    ensures Picked(log, at, lo, hi, mine) == [] <==> forall p | lo <= p < hi && p in at :: !WantedAt(log, p, mine)
    decreases hi - lo
  {
    if lo < hi { PickedNone(log, at, lo + 1, hi, mine); }
  }

  lemma {:induction false} PickedFirst(log: seq<Entry>, at: set<nat>, lo: nat, hi: nat, mine: set<string>)
    returns (k: nat)
    requires lo <= hi <= |log| && Picked(log, at, lo, hi, mine) != []
    ensures lo <= k < hi && Picked(log, at, lo, hi, mine)[0] == ParseEntry(log[k])
    decreases hi - lo
  {
    if lo in at && WantedAt(log, lo, mine) { k := lo; } else { k := PickedFirst(log, at, lo + 1, hi, mine); }
  }

  lemma {:induction false} FirstWanted(log: seq<Entry>, lo: nat, hi: nat, mine: set<string>) returns (k: nat)
    requires lo <= hi <= |log| && Slice(log, lo, hi, mine) != []
    ensures lo <= k < hi && Slice(log, lo, hi, mine)[0] == ParseEntry(log[k])
    decreases hi - lo
  {
    if WantedAt(log, lo, mine) { k := lo; } else { k := FirstWanted(log, lo + 1, hi, mine); }
  }

  /** Events from before `mid`, if there are any, cannot be the first of a piece
      that starts there. */
  lemma OldEventsSpoil(log: seq<Entry>, at: set<nat>, seen: nat, late: seq<Event>, read: nat, end: nat,
                       mine: set<string>)
    requires Sorted(log) && seen <= read <= end <= |log| && Picked(log, at, 0, seen, mine) != []
    ensures Picked(log, at, 0, seen, mine) + late != Slice(log, read, end, mine)
  {
    var early := Picked(log, at, 0, seen, mine);
    assert (early + late)[0] == early[0];
    if Slice(log, read, end, mine) != [] {
      var i := PickedFirst(log, at, 0, seen, mine);
      var k := FirstWanted(log, read, end, mine);
      assert Lt(log[i].id, log[k].id);
    }
  }

  /** A piece is complete exactly when every wanted position of it is there. */
  lemma {:induction false} PickedAll(log: seq<Entry>, at: set<nat>, lo: nat, hi: nat, mine: set<string>)
    requires Sorted(log) && lo <= hi <= |log|
    ensures Picked(log, at, lo, hi, mine) == Slice(log, lo, hi, mine) <==> AllPicked(log, at, lo, hi, mine)
    decreases hi - lo
  {
    if lo < hi {
      PickedAll(log, at, lo + 1, hi, mine);
      if !WantedAt(log, lo, mine) {
        NotPicked(log, at, lo, hi, mine);
      } else if lo in at {
        FirstIsThere(log, at, lo, hi, mine);
      } else {
        FirstIsMissing(log, at, lo, hi, mine);
      }
    }
  }

  lemma FirstIsThere(log: seq<Entry>, at: set<nat>, lo: nat, hi: nat, mine: set<string>)
    requires lo < hi <= |log| && lo in at && WantedAt(log, lo, mine)
    ensures Picked(log, at, lo, hi, mine) == Slice(log, lo, hi, mine)
            <==> Picked(log, at, lo + 1, hi, mine) == Slice(log, lo + 1, hi, mine)
  {
    SameAfter([ParseEntry(log[lo])], Picked(log, at, lo + 1, hi, mine), Slice(log, lo + 1, hi, mine));
  }

  lemma FirstIsMissing(log: seq<Entry>, at: set<nat>, lo: nat, hi: nat, mine: set<string>)
    requires Sorted(log) && lo < hi <= |log| && lo !in at && WantedAt(log, lo, mine)
    ensures Picked(log, at, lo, hi, mine) != Slice(log, lo, hi, mine)
  {
    assert Slice(log, lo, hi, mine)[0] == ParseEntry(log[lo]);
    if Picked(log, at, lo + 1, hi, mine) != [] {
      var k := PickedFirst(log, at, lo + 1, hi, mine);
      assert Lt(log[lo].id, log[k].id);
    }
  }

  /** Where nothing is wanted nothing is picked. */
  lemma {:induction false} PickedOfNothing(log: seq<Entry>, at: set<nat>, lo: nat, hi: nat, mine: set<string>)
    requires lo <= hi <= |log| && Slice(log, lo, hi, mine) == []
    ensures Picked(log, at, lo, hi, mine) == []
    decreases hi - lo
  {
    if lo < hi { PickedOfNothing(log, at, lo + 1, hi, mine); }
  }

  // ---------------------------------------- the live loop, over any positions

  lemma {:induction false} NewerKeeps(log: seq<Entry>, at: set<nat>, k: nat, lo: nat, hi: nat, mine: set<string>)
    requires Sorted(log) && k < lo <= hi <= |log|
    ensures Newer(Picked(log, at, lo, hi, mine), Some(log[k].id)) == Picked(log, at, lo, hi, mine)
    decreases hi - lo
  {
    if lo < hi {
      assert Lt(log[k].id, log[lo].id);
      if lo in at && WantedAt(log, lo, mine) {
        NewerCons(ParseEntry(log[lo]), Picked(log, at, lo + 1, hi, mine), Some(log[k].id));
        NewerKeeps(log, at, lo, lo + 1, hi, mine);
      } else {
        NewerKeeps(log, at, k, lo + 1, hi, mine);
      }
    }
  }

  lemma {:induction false} NewerKeepsAll(log: seq<Entry>, at: set<nat>, lo: nat, hi: nat, mine: set<string>)
    requires Sorted(log) && lo <= hi <= |log|
    ensures Newer(Picked(log, at, lo, hi, mine), None) == Picked(log, at, lo, hi, mine)
    decreases hi - lo
  {
    if lo < hi {
      if lo in at && WantedAt(log, lo, mine) {
        NewerCons(ParseEntry(log[lo]), Picked(log, at, lo + 1, hi, mine), None);
        NewerKeeps(log, at, lo, lo + 1, hi, mine);
      } else {
        NewerKeepsAll(log, at, lo + 1, hi, mine);
      }
    }
  }

  lemma NewerSkipsOne(log: seq<Entry>, at: set<nat>, lo: nat, k: nat, hi: nat, mine: set<string>)
    requires Sorted(log) && lo <= k < hi <= |log|
    ensures Newer(Picked(log, at, lo, hi, mine), Some(log[k].id))
            == Newer(Picked(log, at, lo + 1, hi, mine), Some(log[k].id))
  {
    assert lo < k ==> Lt(log[lo].id, log[k].id);
    if lo in at && WantedAt(log, lo, mine) {
      NewerCons(ParseEntry(log[lo]), Picked(log, at, lo + 1, hi, mine), Some(log[k].id));
    } else {
      NotPicked(log, at, lo, hi, mine);
    }
  }

  /** What was already sent is skipped. */
  lemma {:induction false} NewerSkips(log: seq<Entry>, at: set<nat>, lo: nat, k: nat, hi: nat, mine: set<string>)
    requires Sorted(log) && lo <= k + 1 <= hi <= |log|
    ensures Newer(Picked(log, at, lo, hi, mine), Some(log[k].id)) == Picked(log, at, k + 1, hi, mine)
    decreases k + 1 - lo
  {
    if lo > k {
      NewerKeeps(log, at, k, lo, hi, mine);
    } else {
      NewerSkips(log, at, lo + 1, k, hi, mine);
      NewerSkipsOne(log, at, lo, k, hi, mine);
    }
  }

  /** What the client is sent: the replay, and what it lets through of the queue. */
  function Sent(head: seq<Event>, live: seq<Event>): seq<Event> { head + Newer(live, LastId(head)) }

  lemma DropNothing(log: seq<Entry>, at: set<nat>, lo: nat, mid: nat, hi: nat, mine: set<string>)
    requires lo <= mid <= hi <= |log| && Slice(log, lo, mid, mine) == []
    ensures Picked(log, at, lo, hi, mine) == Picked(log, at, mid, hi, mine)
  {
    PickedSplit(log, at, lo, mid, hi, mine);
    PickedOfNothing(log, at, lo, mid, mine);
  }

  /** After a replay that sent something the client gets what is queued from its
      end on. */
  lemma AfterReplay(log: seq<Entry>, at: set<nat>, seen: nat, read: nat, end: nat, mine: set<string>)
    requires Sorted(log) && seen <= read <= end <= |log| && Slice(log, seen, read, mine) != []
    ensures Newer(Picked(log, at, 0, end, mine), LastId(Slice(log, seen, read, mine)))
            == Picked(log, at, read, end, mine)
  {
    var k := LastWanted(log, seen, read, mine);
    NewerSkips(log, at, 0, k, end, mine);
    DropNothing(log, at, k + 1, read, end, mine);
  }

  /** When the replay sent nothing, what is queued from before `seen` comes first. */
  lemma AfterSilence(log: seq<Entry>, at: set<nat>, seen: nat, read: nat, end: nat, mine: set<string>)
    requires Sorted(log) && seen <= read <= end <= |log| && Slice(log, seen, read, mine) == []
    ensures Newer(Picked(log, at, 0, end, mine), None)
            == Picked(log, at, 0, seen, mine) + Picked(log, at, read, end, mine)
  {
    NewerKeepsAll(log, at, 0, end, mine);
    PickedSplit(log, at, 0, seen, end, mine);
    DropNothing(log, at, seen, read, end, mine);
  }

  /** A replay of [seen, read) and a queue with the positions `at`, all before `end`,
      give the client every wanted event of [seen, end), once and in order, exactly
      when the replay sent something or nothing wanted from before `seen` was
      queued, and every wanted entry from `read` on was. */
  lemma JoinsExactly(log: seq<Entry>, at: set<nat>, seen: nat, read: nat, end: nat, mine: set<string>)
    requires Sorted(log) && seen <= read <= end <= |log|
    ensures var head := Slice(log, seen, read, mine);
            Sent(head, Picked(log, at, 0, end, mine)) == Slice(log, seen, end, mine)
            <==> (head != [] || NoneBefore(log, at, seen, mine)) && AllPicked(log, at, read, end, mine)
  {
    if Slice(log, seen, read, mine) != [] {
      LoudJoin(log, at, seen, read, end, mine);
    } else {
      SilentJoin(log, at, seen, read, end, mine);
    }
  }

  lemma LoudJoin(log: seq<Entry>, at: set<nat>, seen: nat, read: nat, end: nat, mine: set<string>)
    requires Sorted(log) && seen <= read <= end <= |log| && Slice(log, seen, read, mine) != []
    ensures Sent(Slice(log, seen, read, mine), Picked(log, at, 0, end, mine)) == Slice(log, seen, end, mine)
            <==> AllPicked(log, at, read, end, mine)
  {
    AfterReplay(log, at, seen, read, end, mine);
    SliceSplit(log, seen, read, end, mine);
    SameAfter(Slice(log, seen, read, mine), Picked(log, at, read, end, mine), Slice(log, read, end, mine));
    PickedAll(log, at, read, end, mine);
  }

  lemma SilentJoin(log: seq<Entry>, at: set<nat>, seen: nat, read: nat, end: nat, mine: set<string>)
    requires Sorted(log) && seen <= read <= end <= |log| && Slice(log, seen, read, mine) == []
    ensures Sent([], Picked(log, at, 0, end, mine)) == Slice(log, seen, end, mine)
            <==> NoneBefore(log, at, seen, mine) && AllPicked(log, at, read, end, mine)
  {
    var early, late := Picked(log, at, 0, seen, mine), Picked(log, at, read, end, mine);
    AfterSilence(log, at, seen, read, end, mine);
    assert Sent([], Picked(log, at, 0, end, mine)) == early + late;
    SliceSplit(log, seen, read, end, mine);
    assert Slice(log, seen, end, mine) == Slice(log, read, end, mine);
    PickedNone(log, at, 0, seen, mine);
    if early != [] {
      OldEventsSpoil(log, at, seen, late, read, end, mine);
    } else {
      assert early + late == late;
      PickedAll(log, at, read, end, mine);
    }
  }

  // ------------------------------------------------ what a run leaves behind

  /** A tenant later on: its stream grew, and more was fanned out. */
  predicate Later(n: Tenant, n': Tenant) {
    Grows(n.stream, n'.stream) && n.fanned <= n'.fanned
  }

  /** A subscription later on is the same subscription. */
  predicate SameSub(sub: Sub, sub': Sub) {
    sub.tenant == sub'.tenant && sub.channels == sub'.channels && sub.joined == sub'.joined
  }

  lemma SameIsLater(n: Tenant)
    requires TenantOk(n)
    ensures Later(n, n)
  {
  }

  lemma DeliveredIsLater(feed: Feed, n: Tenant)
    requires TenantOk(n) && feed.phase.Replied?
    ensures Later(n, Delivered(feed, n))
  {
  }

  lemma StepIsLater(b: Bus, c: Config, step: Step, t: int)
    requires TenantsOk(b) && CanStep(b, c, step)
    ensures Later(TenantOf(b, t), TenantOf(Apply(b, c, step), t))
  {
    SameIsLater(TenantOf(b, t));
    if step.Deliver? {
      var u := b.reg.readerTasks[step.r].tenant;
      DeliveredIsLater(b.feeds[step.r], TenantOf(b, u));
    }
  }

  lemma ReachedTenants(states: seq<Bus>, steps: seq<Step>, c: Config)
    requires Run(states, steps, c) && c.maxlen >= 1
    ensures TenantsOk(states[|steps|])
  {
    RunKeepsBusOk(states, steps, c);
  }

  lemma LaterIsTransitive(n: Tenant, n': Tenant, n'': Tenant)
    requires Later(n, n') && Later(n', n'')
    ensures Later(n, n'')
  {
    assert n''.stream.log[..|n.stream.log|] == n'.stream.log[..|n.stream.log|];
  }

  lemma StepKeepsSubscription(b: Bus, c: Config, step: Step, s: nat)
    requires CanStep(b, c, step) && s in b.table && (forall q | q in b.table :: q < b.reg.next)
    ensures s in Apply(b, c, step).table && SameSub(b.table[s], Apply(b, c, step).table[s])
  {
    if step.Deliver? { OfferAllFrame(b.table[s], Parsed(b.feeds[step.r].phase.batch), c.queueSize); }
  }

  lemma {:induction false} RunIsLater(states: seq<Bus>, steps: seq<Step>, c: Config, i: nat, t: int)
    requires Run(states, steps, c) && c.maxlen >= 1 && i <= |steps|
    ensures Later(TenantOf(states[i], t), TenantOf(states[|steps|], t))
    decreases |steps|
  {
    if i == |steps| {
      ReachedTenants(states, steps, c);
      SameIsLater(TenantOf(states[i], t));
    } else {
      var m := |steps| - 1;
      RunPrefix(states, steps, c);
      ReachedTenants(states[..m + 1], steps[..m], c);
      RunIsLater(states[..m + 1], steps[..m], c, i, t);
      StepIsLater(states[m], c, steps[m], t);
      LaterIsTransitive(TenantOf(states[i], t), TenantOf(states[m], t), TenantOf(states[m + 1], t));
    }
  }

  lemma {:induction false} RunKeepsSubscription(states: seq<Bus>, steps: seq<Step>, c: Config, i: nat, s: nat)
    requires Run(states, steps, c) && c.maxlen >= 1 && i <= |steps| && s in states[i].table
    ensures s in states[|steps|].table && SameSub(states[i].table[s], states[|steps|].table[s])
    decreases |steps|
  {
    if i < |steps| {
      var m := |steps| - 1;
      RunPrefix(states, steps, c);
      RunKeepsBusOk(states[..m + 1], steps[..m], c);
      RunKeepsSubscription(states[..m + 1], steps[..m], c, i, s);
      StepKeepsSubscription(states[m], c, steps[m], s);
    }
  }

  lemma {:induction false} RunUpTo(states: seq<Bus>, steps: seq<Step>, c: Config, i: nat)
    requires Run(states, steps, c) && i <= |steps|
    ensures Run(states[..i + 1], steps[..i], c)
    decreases |steps|
  {
    if i < |steps| {
      var m := |steps| - 1;
      RunPrefix(states, steps, c);
      RunUpTo(states[..m + 1], steps[..m], c, i);
      assert states[..m + 1][..i + 1] == states[..i + 1] && steps[..m][..i] == steps[..i];
    } else {
      assert states[..i + 1] == states && steps[..i] == steps;
    }
  }

  lemma ReachedIsOk(states: seq<Bus>, steps: seq<Step>, c: Config, i: nat)
    requires Run(states, steps, c) && c.maxlen >= 1 && i <= |steps|
    ensures BusOk(states[i])
  {
    RunUpTo(states, steps, c, i);
    RunKeepsBusOk(states[..i + 1], steps[..i], c);
  }

  /** Of two states of a run the second is later. */
  lemma FromTo(states: seq<Bus>, steps: seq<Step>, c: Config, i: nat, j: nat, t: int)
    requires Run(states, steps, c) && c.maxlen >= 1 && i <= j <= |steps|
    ensures Later(TenantOf(states[i], t), TenantOf(states[j], t))
  {
    RunUpTo(states, steps, c, j);
    RunIsLater(states[..j + 1], steps[..j], c, i, t);
  }

  // ------------------------------------------- the queue, as stream positions

  function WindowEnd(sub: Sub, n: Tenant): nat {
    if sub.left.Some? then sub.left.value else |n.fanned|
  }

  predicate WindowIn(sub: Sub, n: Tenant) {
    sub.joined <= WindowEnd(sub, n) <= |n.fanned|
  }

  /** The positions fanned out while it was subscribed. */
  function Offered(sub: Sub, n: Tenant): set<nat>
    requires WindowIn(sub, n)
  {
    Positions(n.fanned, sub.joined, WindowEnd(sub, n))
  }

  function Positions(fanned: seq<nat>, lo: nat, hi: nat): set<nat>
    requires lo <= hi <= |fanned|
  {
    set p | p in fanned[lo..hi]
  }

  lemma PositionIsThere(fanned: seq<nat>, lo: nat, hi: nat, k: nat)
    requires lo <= k < hi <= |fanned|
    ensures fanned[k] in Positions(fanned, lo, hi)
  {
    assert fanned[lo..hi][k - lo] == fanned[k];
  }

  lemma WhichPosition(fanned: seq<nat>, lo: nat, hi: nat, p: nat) returns (k: nat)
    requires lo <= hi <= |fanned| && p in Positions(fanned, lo, hi)
    ensures lo <= k < hi && fanned[k] == p
  {
    var i :| 0 <= i < hi - lo && fanned[lo..hi][i] == p;
    k := lo + i;
  }

  lemma NotBetween(fanned: seq<nat>, lo: nat, i: nat, hi: nat, p: nat)
    requires Rising(fanned) && lo <= i <= hi <= |fanned|
    requires lo < i ==> fanned[i - 1] < p
    requires i < hi ==> p < fanned[i]
    ensures p !in Positions(fanned, lo, hi)
  {
    forall k | lo <= k < hi ensures fanned[k] != p {
      if k < i { assert k < i - 1 ==> fanned[k] < fanned[i - 1]; }
      else { assert i < k ==> fanned[i] < fanned[k]; }
    }
  }

  lemma FirstOffered(n: Tenant, i: nat, hi: nat, mine: set<string>)
    requires PositionsIn(n) && i < hi <= |n.fanned|
    ensures Wanted(Fanned(n)[i..hi], mine)
            == if WantedAt(n.stream.log, n.fanned[i], mine)
               then [ParseEntry(n.stream.log[n.fanned[i]])] + Wanted(Fanned(n)[i + 1..hi], mine)
               else Wanted(Fanned(n)[i + 1..hi], mine)
  {
    assert Fanned(n)[i..hi] == [Fanned(n)[i]] + Fanned(n)[i + 1..hi];
    WantedCons(Fanned(n)[i], Fanned(n)[i + 1..hi], mine);
  }

  lemma PickedHere(n: Tenant, lo: nat, i: nat, hi: nat, mine: set<string>)
    requires PositionsIn(n) && lo <= i < hi <= |n.fanned|
    requires Wanted(Fanned(n)[i + 1..hi], mine)
             == Picked(n.stream.log, Positions(n.fanned, lo, hi), n.fanned[i] + 1, |n.stream.log|, mine)
    ensures Wanted(Fanned(n)[i..hi], mine)
            == Picked(n.stream.log, Positions(n.fanned, lo, hi), n.fanned[i], |n.stream.log|, mine)
  {
    PositionIsThere(n.fanned, lo, hi, i);
    FirstOffered(n, i, hi, mine);
  }

  /** Events fanned out from rising positions are the events picked at them. */
  lemma {:induction false} WantedIsPicked(n: Tenant, lo: nat, i: nat, hi: nat, p: nat, mine: set<string>)
    requires PositionsIn(n) && Rising(n.fanned) && lo <= i <= hi <= |n.fanned| && p <= |n.stream.log|
    requires lo < i ==> n.fanned[i - 1] < p
    requires i < hi ==> p <= n.fanned[i]
    ensures Wanted(Fanned(n)[i..hi], mine)
            == Picked(n.stream.log, Positions(n.fanned, lo, hi), p, |n.stream.log|, mine)
    decreases |n.stream.log| - p
  {
    if p == |n.stream.log| {
      assert Fanned(n)[i..hi] == [];
    } else if i < hi && n.fanned[i] == p {
      assert i + 1 < hi ==> n.fanned[i] < n.fanned[i + 1];
      WantedIsPicked(n, lo, i + 1, hi, p + 1, mine);
      PickedHere(n, lo, i, hi, mine);
    } else {
      WantedIsPicked(n, lo, i, hi, p + 1, mine);
      NotBetween(n.fanned, lo, i, hi, p);
      NotPicked(n.stream.log, Positions(n.fanned, lo, hi), p, |n.stream.log|, mine);
    }
  }

  /** Where the client's view ends: the replay's end, or the last position it was
      offered. */
  function ServedTo(sub: Sub, n: Tenant, read: nat): nat
    requires WindowIn(sub, n)
  {
    if sub.joined == WindowEnd(sub, n) then read else Max(read, n.fanned[WindowEnd(sub, n) - 1] + 1)
  }

  predicate Linked(sub: Sub, n: Tenant, seen: nat, read: nat) {
    && TenantOk(n) && WindowIn(sub, n) && seen <= read <= |n.stream.log|
  }

  lemma OfferedBefore(sub: Sub, n: Tenant, read: nat)
    requires Linked(sub, n, read, read)
    ensures ServedTo(sub, n, read) <= |n.stream.log|
    ensures forall p | p in Offered(sub, n) :: p < ServedTo(sub, n, read)
  {
    var hi := WindowEnd(sub, n);
    forall p | p in Offered(sub, n) ensures p < ServedTo(sub, n, read) {
      var k := WhichPosition(n.fanned, sub.joined, hi, p);
      assert k < hi - 1 ==> n.fanned[k] < n.fanned[hi - 1];
    }
  }

  lemma ReceivedIsPicked(sub: Sub, n: Tenant, read: nat)
    requires Linked(sub, n, read, read) && SubOk(sub, n) && !sub.dropped
    ensures ServedTo(sub, n, read) <= |n.stream.log|
    ensures Received(sub) == Picked(n.stream.log, Offered(sub, n), 0, ServedTo(sub, n, read), sub.channels)
  {
    var log, at, end := n.stream.log, Offered(sub, n), ServedTo(sub, n, read);
    OfferedBefore(sub, n, read);
    WantedIsPicked(n, sub.joined, sub.joined, WindowEnd(sub, n), 0, sub.channels);
    PickedSplit(log, at, 0, end, |log|, sub.channels);
    PickedNone(log, at, end, |log|, sub.channels);
  }

  /** The client has every wanted event from `seen` to the end of its view, once and
      in order, exactly when the replay `head` sent something or it was offered
      nothing wanted from before `seen`, and it was offered every wanted entry from
      the end of the replay on. */
  predicate ServedIff(sub: Sub, n: Tenant, seen: nat, read: nat, head: seq<Event>)
    requires Linked(sub, n, seen, read) && ServedTo(sub, n, read) <= |n.stream.log|
  {
    var log, mine := n.stream.log, sub.channels;
    Sent(head, Received(sub)) == Slice(log, seen, ServedTo(sub, n, read), mine)
    <==> && (head != [] || NoneBefore(log, Offered(sub, n), seen, mine))
         && AllPicked(log, Offered(sub, n), read, ServedTo(sub, n, read), mine)
  }

  lemma QueueJoins(sub: Sub, n: Tenant, seen: nat, read: nat, head: seq<Event>)
    requires Linked(sub, n, seen, read) && SubOk(sub, n) && !sub.dropped
    requires head == Slice(n.stream.log, seen, read, sub.channels)
    ensures ServedTo(sub, n, read) <= |n.stream.log| && ServedIff(sub, n, seen, read, head)
  {
    ReceivedIsPicked(sub, n, read);
    JoinsExactly(n.stream.log, Offered(sub, n), seen, read, ServedTo(sub, n, read), sub.channels);
  }

  // ------------------------------------------------------------- end to end

  /** The two reads of a replay found no gap. Streams of a run are always valid. */
  predicate NoGap(first: Stream, second: Stream, after: Id, limit: nat) {
    first.Valid() && second.Valid() && !History(first, second, after, limit).gap
  }

  lemma ReplayIsSlice(first: Stream, second: Stream, after: Id, limit: nat, log: seq<Entry>, mine: set<string>)
    requires Grows(first, second) && second.HoldsSome()
    requires |first.log| <= |log| && log[..|first.log|] == first.log
    requires !History(first, second, after, limit).gap
    ensures Wanted(History(first, second, after, limit).events, mine)
            == Slice(log, Pos(first.log, after), |first.log|, mine)
  {
    var seen, read := Pos(first.log, after), |first.log|;
    HistoryIsSound(first, second, after, limit);
    AfterIsSuffix(first.log, after);
    SliceIsWanted(log, seen, read, mine);
    assert log[seen..read] == first.log[seen..];
  }

  /** What holds at the end of the run for a subscription that was there, and a
      stream that was read, at states `i` and `j`. */
  predicate Joined(sub: Sub, n: Tenant, first: Stream, second: Stream) {
    && TenantOk(n) && SubOk(sub, n) && WindowIn(sub, n)
    && Grows(first, second) && second.HoldsSome() && Grows(first, n.stream)
    && (0 < sub.joined ==> n.fanned[sub.joined - 1] < |first.log|)
  }

  lemma JoinedInRun(states: seq<Bus>, steps: seq<Step>, c: Config, s: nat, i: nat, j: nat)
    requires Run(states, steps, c) && c.maxlen >= 1 && i <= j <= |steps| && s in states[i].table
    ensures var b, t := states[|steps|], states[i].table[s].tenant;
            && s in b.table && b.table[s].tenant == t
            && Joined(b.table[s], TenantOf(b, t), TenantOf(states[i], t).stream, TenantOf(states[j], t).stream)
  {
    var b, t := states[|steps|], states[i].table[s].tenant;
    RunKeepsSubscription(states, steps, c, i, s);
    ReachedIsOk(states, steps, c, i);
    ReachedIsOk(states, steps, c, j);
    ReachedIsOk(states, steps, c, |steps|);
    FromTo(states, steps, c, i, j, t);
    FromTo(states, steps, c, i, |steps|, t);
    assert TenantOk(TenantOf(states[j], t)) && TenantOk(TenantOf(b, t));
    JoinedFacts(states[i].table[s], TenantOf(states[i], t), b.table[s], TenantOf(b, t));
  }

  lemma JoinedFacts(sub: Sub, n: Tenant, sub': Sub, n': Tenant)
    requires SubOk(sub, n) && SubOk(sub', n') && SameSub(sub, sub') && Later(n, n')
    ensures WindowIn(sub', n')
    ensures 0 < sub'.joined ==> n'.fanned[sub'.joined - 1] < |n.stream.log|
  {
    assert sub.joined <= |n.fanned|;
  }

  /** The whole path of a reconnecting client, in any run: it subscribed before
      state `i`; the replay was read, without a gap, from the stream as it was at
      states `i` and `j`; and it was not dropped by the end. */
  lemma ReconnectingClient(
    states: seq<Bus>, steps: seq<Step>, c: Config, s: nat, i: nat, j: nat, after: Id, limit: nat)
    requires Run(states, steps, c) && c.maxlen >= 1 && i <= j <= |steps|
    requires s in states[i].table && s in states[|steps|].table && !states[|steps|].table[s].dropped
    requires var t := states[i].table[s].tenant;
             NoGap(TenantOf(states[i], t).stream, TenantOf(states[j], t).stream, after, limit)
    ensures var b := states[|steps|];
            var sub := b.table[s];
            var n := TenantOf(b, sub.tenant);
            var first, second := TenantOf(states[i], sub.tenant).stream, TenantOf(states[j], sub.tenant).stream;
            var seen, read := Pos(first.log, after), |first.log|;
            && Linked(sub, n, seen, read) && ServedTo(sub, n, read) <= |n.stream.log|
            && NoGap(first, second, after, limit)
            && ServedIff(sub, n, seen, read, Wanted(History(first, second, after, limit).events, sub.channels))
  {
    var b, t := states[|steps|], states[i].table[s].tenant;
    var first, second := TenantOf(states[i], t).stream, TenantOf(states[j], t).stream;
    JoinedInRun(states, steps, c, s, i, j);
    ReplayMeetsQueue(b.table[s], TenantOf(b, t), first, second, after, limit);
  }

  lemma ReplayMeetsQueue(sub: Sub, n: Tenant, first: Stream, second: Stream, after: Id, limit: nat)
    requires Joined(sub, n, first, second) && !sub.dropped && NoGap(first, second, after, limit)
    ensures var seen, read := Pos(first.log, after), |first.log|;
            && Linked(sub, n, seen, read) && ServedTo(sub, n, read) <= |n.stream.log|
            && ServedIff(sub, n, seen, read, Wanted(History(first, second, after, limit).events, sub.channels))
  {
    ReplayIsSlice(first, second, after, limit, n.stream.log, sub.channels);
    QueueJoins(sub, n, Pos(first.log, after), |first.log|,
               Wanted(History(first, second, after, limit).events, sub.channels));
  }

  // -------------------------------------- a subscription and its own reader

  /** The reader of a subscription that is there started no later than it did. */
  predicate ReaderIsOlder(b: Bus, sub: Sub) {
    && sub.tenant in b.reg.readers && b.reg.readers[sub.tenant] in b.feeds
    && b.feeds[b.reg.readers[sub.tenant]].base <= sub.joined
  }

  predicate Based(b: Bus) {
    forall s | s in b.table && b.table[s].left.None? :: ReaderIsOlder(b, b.table[s])
  }

  lemma JoinKeepsBased(b: Bus, t: int, channels: set<string>)
    requires Based(b) && FeedsOk(b)
    ensures Based(JoinStep(b, t, channels))
  {
    var b' := JoinStep(b, t, channels);
    if t in b.reg.readers { assert FeedOk(b.feeds[b.reg.readers[t]], TenantOf(b, t)); }
    forall s | s in b'.table && b'.table[s].left.None? ensures ReaderIsOlder(b', b'.table[s]) {
      if s != b.reg.next { assert ReaderIsOlder(b, b.table[s]); }
    }
  }

  /** A registry step takes a reader away only from a tenant without members. */
  lemma RegisteredKeepsBased(b: Bus, a: BusRegistry.Action)
    requires Based(b) && Membership(b.reg, b.table)
    requires BusRegistry.Enabled(b.reg, a) && !a.DoSubscribe? && !a.DoUnsubscribe?
    ensures Based(RegisteredStep(b, a))
  {
    var b' := RegisteredStep(b, a);
    forall s | s in b'.table && b'.table[s].left.None? ensures ReaderIsOlder(b', b'.table[s]) {
      assert ReaderIsOlder(b, b.table[s]);
      assert s in BusRegistry.Peers(b.reg, b.table[s].tenant);
    }
  }

  lemma FeedStepKeepsBased(b: Bus, b': Bus)
    requires Based(b) && b'.reg.readers == b.reg.readers
    requires forall r | r in b.feeds :: r in b'.feeds && b'.feeds[r].base == b.feeds[r].base
    requires forall s | s in b'.table && b'.table[s].left.None? ::
               s in b.table && b.table[s].left.None? && SameSub(b.table[s], b'.table[s])
    ensures Based(b')
  {
    forall s | s in b'.table && b'.table[s].left.None? ensures ReaderIsOlder(b', b'.table[s]) {
      assert ReaderIsOlder(b, b.table[s]);
    }
  }

  lemma DeliverKeepsBased(b: Bus, c: Config, r: nat)
    requires Based(b) && r in b.reg.readerTasks && r in b.feeds && b.feeds[r].phase.Replied?
    ensures Based(DeliverStep(b, c, r))
  {
    forall s | s in b.table
      ensures var s' := DeliverStep(b, c, r).table[s]; s'.left == b.table[s].left && SameSub(b.table[s], s')
    {
      OfferAllFrame(b.table[s], Parsed(b.feeds[r].phase.batch), c.queueSize);
    }
    FeedStepKeepsBased(b, DeliverStep(b, c, r));
  }

  lemma LeaveKeepsBased(b: Bus, s: nat)
    requires Based(b) && s in b.table
    ensures Based(LeaveStep(b, s))
  {
    FeedStepKeepsBased(b, LeaveStep(b, s));
  }

  lemma ReadStepKeepsBased(b: Bus, r: nat)
    requires Based(b) && r in b.feeds
    ensures Based(ReadFailsStep(b, r))
    ensures r in b.reg.readerTasks ==> Based(StartReadStep(b, r))
    ensures (&& r in b.reg.readerTasks && b.feeds[r].phase.Blocked?
             && TenantOf(b, b.reg.readerTasks[r].tenant).stream.Valid()) ==> Based(ServeStep(b, r))
  {
    forall feed: Feed | feed.base == b.feeds[r].base ensures Based(b.(feeds := b.feeds[r := feed])) {
      FeedStepKeepsBased(b, b.(feeds := b.feeds[r := feed]));
    }
  }

  lemma ConsumeKeepsBased(b: Bus, s: nat)
    requires Based(b) && s in b.table && b.table[s].queue != []
    ensures Based(ConsumeStep(b, s))
  {
    FeedStepKeepsBased(b, ConsumeStep(b, s));
  }

  lemma StepKeepsBased(b: Bus, c: Config, step: Step)
    requires Based(b) && FeedsOk(b) && Membership(b.reg, b.table) && CanStep(b, c, step)
    ensures Based(Apply(b, c, step))
  {
    match step
    case Join(t, channels) => JoinKeepsBased(b, t, channels);
    case Leave(s) => LeaveKeepsBased(b, s);
    case Registered(a) => RegisteredKeepsBased(b, a);
    case Publish(t, grown) => FeedStepKeepsBased(b, PublishStep(b, t, grown));
    case StartRead(r) => ReadStepKeepsBased(b, r);
    case Serve(r) => ReadStepKeepsBased(b, r);
    case ReadFails(r) => ReadStepKeepsBased(b, r);
    case Deliver(r) => DeliverKeepsBased(b, c, r);
    case Consume(s) => ConsumeKeepsBased(b, s);
  }

  lemma {:induction false} RunKeepsBased(states: seq<Bus>, steps: seq<Step>, c: Config)
    requires Run(states, steps, c) && c.maxlen >= 1
    ensures Based(states[|steps|])
  {
    if steps != [] {
      var m := |steps| - 1;
      RunPrefix(states, steps, c);
      RunKeepsBusOk(states[..m + 1], steps[..m], c);
      RunKeepsBased(states[..m + 1], steps[..m], c);
      StepKeepsBased(states[m], c, steps[m]);
    }
  }

  /** The last position its reader had fanned out before a subscription joined, or
      the reader's first. */
  function Anchor(base: nat, joined: nat): nat {
    if base < joined then joined - 1 else base
  }

  /** Where the piece of the stream that a subscription gets starts. */
  function PieceStart(fanned: seq<nat>, base: nat, joined: nat): nat
    requires Anchor(base, joined) < |fanned|
  {
    if base < joined then fanned[joined - 1] + 1 else fanned[base]
  }

  function PieceEnd(fanned: seq<nat>): nat
    requires fanned != []
  {
    fanned[|fanned| - 1] + 1
  }

  function BaseOf(b: Bus, t: int): nat
    requires t in b.reg.readers && b.reg.readers[t] in b.feeds
  {
    b.feeds[b.reg.readers[t]].base
  }

  /** A subscription that is there and was not dropped, whose reader has read
      something, and whose part of the stream was not trimmed. */
  predicate Settled(b: Bus, s: nat) {
    && s in b.table && b.table[s].left.None? && !b.table[s].dropped
    && var t := b.table[s].tenant;
    && t in b.reg.readers && b.reg.readers[t] in b.feeds
    && var fanned := TenantOf(b, t).fanned;
    && BaseOf(b, t) < |fanned| && Anchor(BaseOf(b, t), b.table[s].joined) < |fanned|
    && TenantOf(b, t).stream.trimmed <= fanned[Anchor(BaseOf(b, t), b.table[s].joined)] + 1
  }

  /** Rising positions that skip nothing but trimmed entries run without a hole
      from any one that is not trimmed. */
  lemma {:induction false} NoHoles(positions: seq<nat>, base: nat, from: nat, i: nat, trimmed: nat)
    requires Rising(positions) && Covered(positions, base, trimmed) && base <= from <= i < |positions|
    requires trimmed <= positions[from] + 1
    ensures positions[i] == positions[from] + (i - from)
  {
    if from < i {
      NoHoles(positions, base, from, i - 1, trimmed);
      NextIsThere(positions, base, i, trimmed);
    }
  }

  lemma NextIsThere(positions: seq<nat>, base: nat, i: nat, trimmed: nat)
    requires Rising(positions) && Covered(positions, base, trimmed) && base < i < |positions|
    requires trimmed <= positions[i - 1] + 1
    ensures positions[i] == positions[i - 1] + 1
  {
    var j := positions[i - 1] + 1;
    assert positions[base] <= positions[i - 1] by { assert base < i - 1 ==> positions[base] < positions[i - 1]; }
    assert positions[i] <= positions[|positions| - 1];
    assert j in positions[base..];
    var k :| 0 <= k < |positions| - base && positions[base..][k] == j;
    assert positions[base + k] == j;
    RisingAt(positions, i - 1, base + k);
    RisingAt(positions, i, base + k);
  }

  lemma RisingAt(positions: seq<nat>, p: nat, q: nat)
    requires Rising(positions) && p < |positions| && q < |positions|
    ensures p < q <==> positions[p] < positions[q]
    ensures p == q <==> positions[p] == positions[q]
  {
  }

  lemma PieceOf(n: Tenant, joined: nat, lo: nat, hi: nat)
    requires PositionsIn(n) && joined <= |n.fanned| && lo <= hi <= |n.stream.log| && hi - lo == |n.fanned| - joined
    requires forall i | joined <= i < |n.fanned| :: n.fanned[i] == lo + (i - joined)
    ensures Fanned(n)[joined..|n.fanned|] == Parsed(n.stream.log[lo..hi])
  {
  }

  /** A subscription, its tenant, and the first number its reader fanned out. */
  predicate Ready(sub: Sub, n: Tenant, base: nat) {
    && TenantOk(n) && SubOk(sub, n) && sub.left.None? && !sub.dropped
    && base <= sub.joined && base < |n.fanned| && Anchor(base, sub.joined) < |n.fanned|
    && Covered(n.fanned, base, n.stream.trimmed)
    && n.stream.trimmed <= n.fanned[Anchor(base, sub.joined)] + 1
  }

  predicate IsPiece(got: seq<Event>, log: seq<Entry>, lo: nat, hi: nat, mine: set<string>) {
    lo <= hi <= |log| && got == Slice(log, lo, hi, mine)
  }

  lemma PieceReceived(sub: Sub, n: Tenant, base: nat)
    requires Ready(sub, n, base)
    ensures IsPiece(Received(sub), n.stream.log,
                    PieceStart(n.fanned, base, sub.joined), PieceEnd(n.fanned), sub.channels)
  {
    var lo, hi := PieceStart(n.fanned, base, sub.joined), PieceEnd(n.fanned);
    PieceRuns(n, base, sub.joined);
    WindowIsSlice(n, sub.joined, lo, hi, sub.channels);
  }

  lemma WindowIsSlice(n: Tenant, joined: nat, lo: nat, hi: nat, mine: set<string>)
    requires PositionsIn(n) && joined <= |n.fanned| && lo <= hi <= |n.stream.log| && hi - lo == |n.fanned| - joined
    requires forall i | joined <= i < |n.fanned| :: n.fanned[i] == lo + (i - joined)
    ensures Wanted(Fanned(n)[joined..|n.fanned|], mine) == Slice(n.stream.log, lo, hi, mine)
  {
    PieceOf(n, joined, lo, hi);
    SliceIsWanted(n.stream.log, lo, hi, mine);
  }

  lemma PieceRuns(n: Tenant, base: nat, joined: nat)
    requires TenantOk(n) && base <= joined <= |n.fanned| && base < |n.fanned|
    requires Covered(n.fanned, base, n.stream.trimmed) && n.stream.trimmed <= n.fanned[Anchor(base, joined)] + 1
    ensures var lo, hi := PieceStart(n.fanned, base, joined), PieceEnd(n.fanned);
            && lo <= hi <= |n.stream.log| && hi - lo == |n.fanned| - joined
            && forall i | joined <= i < |n.fanned| :: n.fanned[i] == lo + (i - joined)
  {
    var from := Anchor(base, joined);
    forall i | from <= i < |n.fanned| ensures n.fanned[i] == n.fanned[from] + (i - from) {
      NoHoles(n.fanned, base, from, i, n.stream.trimmed);
    }
  }

  lemma SettledIsReady(states: seq<Bus>, steps: seq<Step>, c: Config, s: nat)
    requires Run(states, steps, c) && c.maxlen >= 1 && Settled(states[|steps|], s)
    ensures var b := states[|steps|];
            var t := b.table[s].tenant;
            Ready(b.table[s], TenantOf(b, t), BaseOf(b, t))
  {
    var b := states[|steps|];
    var t := b.table[s].tenant;
    RunKeepsBusOk(states, steps, c);
    RunKeepsBased(states, steps, c);
    assert ReaderIsOlder(b, b.table[s]);
    assert FeedOk(b.feeds[b.reg.readers[t]], TenantOf(b, t));
    assert SubOk(b.table[s], TenantOf(b, t));
    assert TenantOk(TenantOf(b, t));
  }

  /** Such a subscription misses nothing, and gets nothing twice or out of order,
      of the stream from just after the last event fanned out before it joined, or
      from its reader's first one, to the last event fanned out. */
  lemma SettledSubscriberMissesNothing(states: seq<Bus>, steps: seq<Step>, c: Config, s: nat)
    requires Run(states, steps, c) && c.maxlen >= 1 && Settled(states[|steps|], s)
    ensures var b := states[|steps|];
            var sub := b.table[s];
            var n := TenantOf(b, sub.tenant);
            && BaseOf(b, sub.tenant) <= sub.joined
            && IsPiece(Received(sub), n.stream.log, PieceStart(n.fanned, BaseOf(b, sub.tenant), sub.joined),
                       PieceEnd(n.fanned), sub.channels)
  {
    var b := states[|steps|];
    var t := b.table[s].tenant;
    SettledIsReady(states, steps, c, s);
    PieceReceived(b.table[s], TenantOf(b, t), BaseOf(b, t));
  }

  /** So it got exactly what the stream holds from `since` on, say from where it
      ended when the subscription started, exactly when nothing wanted lies between
      that point and the start of its piece. */
  lemma NothingLostIff(states: seq<Bus>, steps: seq<Step>, c: Config, s: nat, since: nat)
    requires Run(states, steps, c) && c.maxlen >= 1 && Settled(states[|steps|], s)
    requires var b := states[|steps|]; since <= PieceEnd(TenantOf(b, b.table[s].tenant).fanned)
    ensures var b := states[|steps|];
            var sub := b.table[s];
            var n := TenantOf(b, sub.tenant);
            var log, mine := n.stream.log, sub.channels;
            var lo, hi := PieceStart(n.fanned, BaseOf(b, sub.tenant), sub.joined), PieceEnd(n.fanned);
            && lo <= hi <= |log|
            && (Received(sub) == Slice(log, since, hi, mine)
                <==> Slice(log, since, lo, mine) == [] && Slice(log, lo, since, mine) == [])
  {
    var b := states[|steps|];
    var sub := b.table[s];
    var n := TenantOf(b, sub.tenant);
    SettledSubscriberMissesNothing(states, steps, c, s);
    PiecesAgreeIff(n.stream.log, since, PieceStart(n.fanned, BaseOf(b, sub.tenant), sub.joined),
                   PieceEnd(n.fanned), sub.channels);
  }

  lemma PiecesAgreeIff(log: seq<Entry>, a: nat, b: nat, hi: nat, mine: set<string>)
    requires a <= hi <= |log| && b <= hi
    ensures Slice(log, b, hi, mine) == Slice(log, a, hi, mine)
            <==> Slice(log, a, b, mine) == [] && Slice(log, b, a, mine) == []
  {
    if a <= b { FrontMatters(log, a, b, hi, mine); } else { FrontMatters(log, b, a, hi, mine); }
  }

  lemma FrontMatters(log: seq<Entry>, a: nat, b: nat, hi: nat, mine: set<string>)
    requires a <= b <= hi <= |log|
    ensures Slice(log, b, hi, mine) == Slice(log, a, hi, mine) <==> Slice(log, a, b, mine) == []
  {
    SliceSplit(log, a, b, hi, mine);
    MiddleMatters([], Slice(log, a, b, mine), Slice(log, b, hi, mine));
  }

  /** Of a stream, the wanted events from `seen` on arrive once and in order, as the
      replay `head` of [seen, read) and what it lets through of the queue `live`
      of [lo, hi). */
  predicate OnceInOrderIff(log: seq<Entry>, seen: nat, read: nat, lo: nat, hi: nat, mine: set<string>,
                           head: seq<Event>, live: seq<Event>) {
    && seen <= read <= |log| && lo <= hi <= |log|
    && (Sent(head, live) == Slice(log, seen, if hi <= read then read else hi, mine)
        <==> && (head != [] || Slice(log, lo, if hi <= seen then hi else seen, mine) == [])
             && Slice(log, read, lo, mine) == [])
  }

  lemma SettledMeetsReplay(sub: Sub, n: Tenant, base: nat, first: Stream, second: Stream, after: Id, limit: nat)
    requires Ready(sub, n, base) && Joined(sub, n, first, second) && NoGap(first, second, after, limit)
    ensures SettledIff(sub, n, base, first, second, after, limit)
  {
    PieceReceived(sub, n, base);
    ReplayIsSlice(first, second, after, limit, n.stream.log, sub.channels);
    ReconnectIsExactlyOnce(n.stream.log, Pos(first.log, after), |first.log|,
                           PieceStart(n.fanned, base, sub.joined), PieceEnd(n.fanned), sub.channels);
  }

  /** The client of a subscription whose replay was read from `first` and `second`:
      it has every wanted event after its last one exactly when the replay sent
      something or nothing wanted from before that point was queued again, and
      nothing wanted lies between the end of the replay and the start of the queue's
      piece. The latter is so for a subscription that joined after its reader's first
      event. */
  predicate SettledIff(sub: Sub, n: Tenant, base: nat, first: Stream, second: Stream, after: Id, limit: nat) {
    && Ready(sub, n, base) && NoGap(first, second, after, limit) && |first.log| <= |n.stream.log|
    && (base < sub.joined ==> PieceStart(n.fanned, base, sub.joined) <= |first.log|)
    && OnceInOrderIff(n.stream.log, Pos(first.log, after), |first.log|,
                      PieceStart(n.fanned, base, sub.joined), PieceEnd(n.fanned), sub.channels,
                      Wanted(History(first, second, after, limit).events, sub.channels), Received(sub))
  }

  /** So it is for the reconnecting client of a settled subscription, in any run. */
  lemma SettledClient(
    states: seq<Bus>, steps: seq<Step>, c: Config, s: nat, i: nat, j: nat, after: Id, limit: nat)
    requires Run(states, steps, c) && c.maxlen >= 1 && i <= j <= |steps|
    requires s in states[i].table && Settled(states[|steps|], s)
    requires var t := states[i].table[s].tenant;
             NoGap(TenantOf(states[i], t).stream, TenantOf(states[j], t).stream, after, limit)
    ensures var b, t := states[|steps|], states[i].table[s].tenant;
            && b.table[s].tenant == t
            && SettledIff(b.table[s], TenantOf(b, t), BaseOf(b, t),
                          TenantOf(states[i], t).stream, TenantOf(states[j], t).stream, after, limit)
  {
    var b, t := states[|steps|], states[i].table[s].tenant;
    JoinedInRun(states, steps, c, s, i, j);
    SettledIsReady(states, steps, c, s);
    SettledMeetsReplay(b.table[s], TenantOf(b, t), BaseOf(b, t),
                       TenantOf(states[i], t).stream, TenantOf(states[j], t).stream, after, limit);
  }

  // ---------------------------------------------- a run that loses an event

  function StaffEvent(ms: nat): Entry { Entry(Id(ms, 0), map["ch" := "staff"]) }

  const ONE := Stream([StaffEvent(5)], 0)
  const TWO := Stream([StaffEvent(5), StaffEvent(6)], 0)
  const LIMITS := Config(1000, 100)

  /** Tenant 7, its subscription 0, and its reader 2. */
  function Lone(queue: seq<Event>, feed: Feed, tenants: map<int, Tenant>): Bus {
    Bus(BusRegistry.Registry(false, map[7 := {0}], map[7 := 2], map[7 := 1], map[],
                             map[2 := BusRegistry.ReaderTask(7, 1, false)], map[], {}, BusRegistry.Doomed({}, {}), 3),
        map[0 := Sub(7, {"staff"}, queue, false, [], 0, None)],
        map[2 := feed], tenants)
  }

  lemma StaffWants(ms: nat)
    ensures Wants({"staff"}, ParseEntry(StaffEvent(ms)).channels)
  {
    PublishThenParse(["staff"]);
    assert "staff" in ["staff"] && Plain("staff");
    assert "staff" in ParseChannels(Channels.Join(["staff"]));
  }

  const UNREAD := Feed(None, Idle, 0)
  const ASKED := Feed(None, Blocked(Id(5, 0)), 0)
  const ANSWERED := Feed(None, Replied(1, [StaffEvent(6)]), 0)

  function LossState(i: nat): Bus {
    match i
    case 0 => START
    case 1 => Lone([], UNREAD, map[])
    case 2 => Lone([], UNREAD, map[7 := Tenant(ONE, [])])
    case 3 => Lone([], ASKED, map[7 := Tenant(ONE, [])])
    case 4 => Lone([], ASKED, map[7 := Tenant(TWO, [])])
    case 5 => Lone([], ANSWERED, map[7 := Tenant(TWO, [])])
    case _ => Lone([ParseEntry(StaffEvent(6))], Feed(Some(Id(6, 0)), Idle, 0), map[7 := Tenant(TWO, [1])])
  }

  function LossStep(i: nat): Step {
    match i
    case 0 => Step.Join(7, {"staff"})
    case 1 => Publish(7, ONE)
    case 2 => StartRead(2)
    case 3 => Publish(7, TWO)
    case 4 => Serve(2)
    case _ => Deliver(2)
  }

  lemma LossJoin()
    ensures JoinStep(START, 7, {"staff"}) == LossState(1)
  {
    var g, want := BusRegistry.Subscribe(BusRegistry.INITIAL, 7), LossState(1).reg;
    assert BusRegistry.Peers(BusRegistry.INITIAL, 7) + {0} == {0};
    assert g.subs == want.subs && g.linger == want.linger && g.lingerTasks == want.lingerTasks;
    assert g.readers == want.readers && g.stops == want.stops && g.readerTasks == want.readerTasks;
  }

  lemma LossReply()
    ensures Pos(TWO.log, Id(5, 0)) == 1 && XRangeAfter(TWO, Id(5, 0), BATCH) == [StaffEvent(6)]
  {
    PosIs(TWO.log, Id(5, 0), 1);
    RetainedAfter(TWO, Id(5, 0));
    assert TWO.log[1..] == [StaffEvent(6)];
  }

  lemma LossServe()
    ensures ServeStep(LossState(4), 2) == LossState(5)
  {
    LossReply();
  }

  lemma LossOffer()
    ensures var s, event := Sub(7, {"staff"}, [], false, [], 0, None), ParseEntry(StaffEvent(6));
            OfferAll(s, [event], 100) == s.(queue := [event])
  {
    var s := Sub(7, {"staff"}, [], false, [], 0, None);
    var event := ParseEntry(StaffEvent(6));
    StaffWants(6);
    assert OfferAll(s, [event][..0], 100) == s;
    assert OfferAll(s, [event], 100) == Offer(s, event, 100);
  }

  lemma LossTable()
    ensures FanOut(LossState(5).table, {0}, Parsed([StaffEvent(6)]), 100) == LossState(6).table
  {
    LossOffer();
    assert Parsed([StaffEvent(6)]) == [ParseEntry(StaffEvent(6))];
  }

  lemma LossDeliver()
    ensures DeliverStep(LossState(5), LIMITS, 2) == LossState(6)
  {
    LossTable();
    LossFanned();
  }

  lemma LossFanned()
    ensures Delivered(ANSWERED, Tenant(TWO, [])) == Tenant(TWO, [1])
    ensures Resumed(ANSWERED) == Feed(Some(Id(6, 0)), Idle, 0)
  {
    assert [] + Upto(1, 1) == [1];
  }

  lemma LossCanHappen(i: nat)
    requires i < 6
    ensures CanStep(LossState(i), LIMITS, LossStep(i))
  {
    assert TWO.log[..1] == ONE.log;
    assert ONE.log[..0] == EMPTY.log;
  }

  lemma LossHappens(i: nat)
    requires i < 6
    ensures CanStep(LossState(i), LIMITS, LossStep(i))
    ensures LossState(i + 1) == Apply(LossState(i), LIMITS, LossStep(i))
  {
    LossCanHappen(i);
    match i {
      case 0 => LossJoin();
      case 4 => LossServe();
      case 5 => LossDeliver();
      case _ =>
    }
  }

  lemma LossRun() returns (states: seq<Bus>, steps: seq<Step>)
    ensures Run(states, steps, LIMITS) && |steps| == 6
    ensures steps[0] == LossStep(0)
    ensures states[1] == LossState(1) && states[5] == LossState(5) && states[6] == LossState(6)
  {
    states, steps := seq(7, (i: nat) => LossState(i)), seq(6, (i: nat) => LossStep(i));
    forall i | 0 <= i < 6
      ensures StepsTo(states[i], LIMITS, steps[i], states[i + 1])
    {
      LossHappens(i);
    }
  }

  /** `first` is the stream a replay was read from, and `b` where the run ended: the
      client was sent the second of two events only. */
  predicate LosesFirst(first: Stream, b: Bus, after: Id, limit: nat) {
    && NoGap(first, first, after, limit)
    && Settled(b, 0) && b.table[0].tenant == 7 && b.table[0].channels == {"staff"} && TenantOf(b, 7).stream == TWO
    && Sent(Wanted(History(first, first, after, limit).events, {"staff"}), Received(b.table[0]))
       == [ParseEntry(StaffEvent(6))]
    && Slice(TWO.log, Pos(first.log, after), 2, {"staff"}) == [ParseEntry(StaffEvent(5)), ParseEntry(StaffEvent(6))]
  }

  lemma SentAlone(event: Event)
    ensures Sent([], [event]) == [event]
  {
    assert Newer([event], None) == [event] + Newer([], Some(event.id));
  }

  lemma LossSends(after: Id, limit: nat)
    ensures LosesFirst(EMPTY, LossState(6), after, limit)
  {
    SentAlone(ParseEntry(StaffEvent(6)));
    assert Received(LossState(6).table[0]) == [ParseEntry(StaffEvent(6))];
    LossSlice();
    assert History(EMPTY, EMPTY, after, limit) == Replay([], false);
  }

  lemma LossSlice()
    ensures Slice(TWO.log, 0, 2, {"staff"}) == [ParseEntry(StaffEvent(5)), ParseEntry(StaffEvent(6))]
  {
    StaffWants(5);
    StaffWants(6);
    assert Slice(TWO.log, 1, 2, {"staff"}) == [ParseEntry(StaffEvent(6))];
  }

  /** Before its first non-empty read a reader asks for "$" again and again. Here a
      subscriber is there all along, its replay is read after it subscribed and
      reports no gap, nothing is trimmed and nobody is dropped; and yet the client
      is never sent the first of two events. */
  lemma FirstEventCanBeLost(after: Id, limit: nat) returns (states: seq<Bus>, steps: seq<Step>)
    ensures Run(states, steps, LIMITS) && steps != [] && steps[0] == Step.Join(7, {"staff"})
    ensures 0 in states[1].table
    ensures LosesFirst(TenantOf(states[1], 7).stream, states[|steps|], after, limit)
  {
    LossSends(after, limit);
    states, steps := LossRun();
    assert TenantOf(states[1], 7).stream == EMPTY;
  }

  // -------------------------------------------- a run that repeats an event

  /** `first` is the stream a replay was read from, and `b` where the run ended: the
      client's last event was the newest of the stream and still is, and yet it was
      sent that one again. */
  predicate Repeats(first: Stream, b: Bus, last: Event, limit: nat) {
    && NoGap(first, first, last.id, limit)
    && Settled(b, 0) && b.table[0].tenant == 7 && b.table[0].channels == {"staff"} && TenantOf(b, 7).stream == first
    && Slice(first.log, Pos(first.log, last.id), |first.log|, {"staff"}) == []
    && Sent(Wanted(History(first, first, last.id, limit).events, {"staff"}), Received(b.table[0])) == [last]
  }

  lemma NothingAfterSix(limit: nat)
    ensures NoGap(TWO, TWO, Id(6, 0), limit) && History(TWO, TWO, Id(6, 0), limit).events == []
    ensures Pos(TWO.log, Id(6, 0)) == |TWO.log|
  {
    PosIs(TWO.log, Id(6, 0), 2);
    RetainedAfter(TWO, Id(6, 0));
    assert TWO.log[2..] == [];
  }

  lemma SixIsSettled()
    ensures Settled(LossState(6), 0) && LossState(6).table[0].tenant == 7 && LossState(6).table[0].channels == {"staff"}
    ensures TenantOf(LossState(6), 7).stream == TWO
    ensures Received(LossState(6).table[0]) == [ParseEntry(StaffEvent(6))]
  {
  }

  lemma NothingNewRepeats(first: Stream, b: Bus, last: Event, limit: nat)
    requires NoGap(first, first, last.id, limit) && History(first, first, last.id, limit).events == []
    requires Pos(first.log, last.id) == |first.log|
    requires Settled(b, 0) && b.table[0].tenant == 7 && b.table[0].channels == {"staff"}
    requires TenantOf(b, 7).stream == first && Received(b.table[0]) == [last]
    ensures Repeats(first, b, last, limit)
  {
    SentAlone(last);
  }

  lemma RepeatSends(limit: nat)
    ensures Repeats(TWO, LossState(6), ParseEntry(StaffEvent(6)), limit)
  {
    NothingAfterSix(limit);
    SixIsSettled();
    assert ParseEntry(StaffEvent(6)).id == Id(6, 0);
    NothingNewRepeats(TWO, LossState(6), ParseEntry(StaffEvent(6)), limit);
  }

  /** The same run, with a client that has the second event already, say from an
      earlier connection: it subscribed before the reader got that event, its replay
      was read after, is empty and reports no gap, and then the reader delivers. */
  lemma LastEventCanBeRepeated(limit: nat) returns (states: seq<Bus>, steps: seq<Step>)
    ensures Run(states, steps, LIMITS) && |steps| == 6 && 0 in states[5].table
    ensures Repeats(TenantOf(states[5], 7).stream, states[6], ParseEntry(StaffEvent(6)), limit)
  {
    RepeatSends(limit);
    states, steps := LossRun();
    AnsweredHolds();
  }

  lemma AnsweredHolds()
    ensures 0 in LossState(5).table && TenantOf(LossState(5), 7).stream == TWO
  {
  }
}
