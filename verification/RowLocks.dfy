/**
 Row locks on inventory items. A transaction takes the locks of all its items in
 one call, ascending by id, then moves stock under them and commits; one of the
 source's transactions makes two such calls.
 */
module RowLocks {
  import opened Options

  type Item = nat
  type Tx = nat

  // ---------------------------------------------------------- the fixed order

  predicate Ascending(ids: seq<Item>) {
    forall i, j | 0 <= i < j < |ids| :: ids[i] < ids[j]
  }

  function Insert(id: Item, ids: seq<Item>): seq<Item> {
    if ids == [] || id < ids[0] then [id] + ids
    else if id == ids[0] then ids
    else [ids[0]] + Insert(id, ids[1..])
  }

  /** `sorted(set(item_ids))` */
  function Canonical(ids: seq<Item>): seq<Item> {
    if ids == [] then [] else Insert(ids[0], Canonical(ids[1..]))
  }

  lemma {:induction false} InsertMembers(id: Item, ids: seq<Item>, x: Item)
    ensures x in Insert(id, ids) <==> x == id || x in ids
  {
    if ids != [] && id > ids[0] {
      InsertMembers(id, ids[1..], x);
      assert ids == [ids[0]] + ids[1..];
    }
  }

  lemma AscendingCons(first: Item, ids: seq<Item>)
    requires Ascending(ids) && forall x | x in ids :: first < x
    ensures Ascending([first] + ids)
  {
    forall k | 0 <= k < |ids| ensures first < ids[k] { assert ids[k] in ids; }
  }

  lemma AscendingTail(ids: seq<Item>)
    requires Ascending(ids) && ids != []
    ensures Ascending(ids[1..]) && forall x | x in ids[1..] :: ids[0] < x
  {
  }

  lemma {:induction false} InsertAscends(id: Item, ids: seq<Item>)
    requires Ascending(ids)
    ensures Ascending(Insert(id, ids))
  {
    if ids == [] {
    } else if id < ids[0] {
      AscendingTail(ids);
      assert ids == [ids[0]] + ids[1..];
      AscendingCons(id, ids);
    } else if id > ids[0] {
      AscendingTail(ids);
      InsertAscends(id, ids[1..]);
      forall x | x in Insert(id, ids[1..]) ensures ids[0] < x { InsertMembers(id, ids[1..], x); }
      AscendingCons(ids[0], Insert(id, ids[1..]));
    }
  }

  lemma InsertKeepsOrder(id: Item, ids: seq<Item>)
    requires Ascending(ids)
    ensures Ascending(Insert(id, ids))
    ensures forall x :: x in Insert(id, ids) <==> x == id || x in ids
  {
    InsertAscends(id, ids);
    forall x ensures x in Insert(id, ids) <==> x == id || x in ids { InsertMembers(id, ids, x); }
  }

  /** Each requested id once, ascending, and no other. */
  lemma {:induction false} CanonicalOrder(ids: seq<Item>)
    ensures Ascending(Canonical(ids))
    ensures forall x :: x in Canonical(ids) <==> x in ids
  {
    if ids != [] {
      CanonicalOrder(ids[1..]);
      InsertKeepsOrder(ids[0], Canonical(ids[1..]));
      assert ids == [ids[0]] + ids[1..];
    }
  }

  /** An ascending list is determined by its elements: two requests for the same
      items take the locks in the same order, however they list them. */
  lemma {:induction false} OneOrderPerSet(a: seq<Item>, b: seq<Item>)
    requires Ascending(a) && Ascending(b) && forall x :: x in a <==> x in b
    ensures a == b
    decreases |a|
  {
    assert b != [] ==> b[0] in a;
    if a != [] {
      assert a[0] in b;
      assert a[0] == b[0];
      forall x ensures x in a[1..] <==> x in b[1..] {
        assert (x in a <==> x == a[0] || x in a[1..]) && (x in b <==> x == b[0] || x in b[1..]);
        assert a[0] !in a[1..] && b[0] !in b[1..];
      }
      OneOrderPerSet(a[1..], b[1..]);
    }
  }

  /** An order of locks that climbs: each id is larger than all before it, or is one
      of them, whose lock is then already held. */
  predicate Climbs(order: seq<Item>) {
    forall i, j | 0 <= i < j < |order| :: order[i] < order[j] || order[j] in order[..j]
  }

  lemma AscendingClimbs(order: seq<Item>)
    requires Ascending(order)
    ensures Climbs(order)
  {
  }

  /** Two calls in one transaction, over `a` and then over `b`. */
  function TwoCalls(a: seq<Item>, b: seq<Item>): seq<Item> { Canonical(a) + Canonical(b) }

  /** What the second call asks for anew is larger than all that the first one took. */
  predicate NewOnesLarger(a: seq<Item>, b: seq<Item>) {
    forall x, y | x in a && y in b && y !in a :: x < y
  }

  /** Such a transaction keeps to the order exactly when that is so. */
  lemma TwoCallsClimbIff(a: seq<Item>, b: seq<Item>)
    ensures Climbs(TwoCalls(a, b)) <==> NewOnesLarger(a, b)
  {
    if NewOnesLarger(a, b) { TwoCallsClimb(a, b); }
    if Climbs(TwoCalls(a, b)) {
      forall x, y | x in a && y in b && y !in a ensures x < y { TwoCallsLarger(a, b, x, y); }
    }
  }

  lemma TwoCallsClimb(a: seq<Item>, b: seq<Item>)
    requires NewOnesLarger(a, b)
    ensures Climbs(TwoCalls(a, b))
  {
    var first, second, order := Canonical(a), Canonical(b), TwoCalls(a, b);
    CanonicalOrder(a);
    CanonicalOrder(b);
    forall i, j | 0 <= i < j < |order| ensures order[i] < order[j] || order[j] in order[..j] {
      if i < |first| <= j {
        assert first[i] in first && second[j - |first|] in second;
        JoinClimbs(first, second, i, j - |first|);
      }
    }
  }

  lemma JoinClimbs(first: seq<Item>, second: seq<Item>, i: nat, k: nat)
    requires i < |first| && k < |second| && (second[k] in first || first[i] < second[k])
    ensures var order, j := first + second, |first| + k; order[i] < order[j] || order[j] in order[..j]
  {
    var order, j := first + second, |first| + k;
    assert order[i] == first[i] && order[j] == second[k];
    if second[k] in first {
      var l :| 0 <= l < |first| && first[l] == second[k];
      assert order[..j][l] == second[k];
    }
  }

  lemma TwoCallsLarger(a: seq<Item>, b: seq<Item>, x: Item, y: Item)
    requires Climbs(TwoCalls(a, b)) && x in a && y in b && y !in a
    ensures x < y
  {
    var first, second, order := Canonical(a), Canonical(b), TwoCalls(a, b);
    CanonicalOrder(a);
    CanonicalOrder(b);
    var i :| 0 <= i < |first| && first[i] == x;
    var k :| 0 <= k < |second| && second[k] == y;
    assert order[i] == x && order[|first| + k] == y;
    NewInSecond(first, second, k);
  }

  lemma NewInSecond(first: seq<Item>, second: seq<Item>, k: nat)
    requires Ascending(second) && k < |second| && second[k] !in first
    ensures second[k] !in (first + second)[..|first| + k]
  {
    forall l | 0 <= l < |first| + k ensures (first + second)[l] != second[k] {
      if l >= |first| { assert (first + second)[l] == second[l - |first|] < second[k]; }
    }
  }

  // ------------------------------------------------------------------- steps

  /** `order` is the sequence in which a transaction takes its locks; it holds
      the first `got` of them. */
  datatype Txn = Txn(order: seq<Item>, got: nat)

  datatype State = State(locks: map<Item, Tx>, txs: map<Tx, Txn>)

  datatype Step =
    | Start(tx: Tx, order: seq<Item>)
    | Acquire(tx: Tx)
    | Relock(tx: Tx, item: Item)
    | Finish(tx: Tx)

  predicate Ready(s: State, tx: Tx) { tx in s.txs && s.txs[tx].got >= |s.txs[tx].order| }

  predicate Seeking(s: State, tx: Tx) { tx in s.txs && s.txs[tx].got < |s.txs[tx].order| }

  function Sought(s: State, tx: Tx): Item
    requires Seeking(s, tx)
  {
    s.txs[tx].order[s.txs[tx].got]
  }

  predicate Enabled(s: State, step: Step) {
    match step
    case Start(tx, _) => tx !in s.txs
    case Acquire(tx) => Seeking(s, tx) && (Sought(s, tx) in s.locks ==> s.locks[Sought(s, tx)] == tx)
    case Relock(tx, item) => tx in s.txs && Holds(s.txs[tx], item)
    case Finish(tx) => Ready(s, tx)
  }

  function Next(s: State, step: Step): State
    requires Enabled(s, step)
  {
    match step
    case Start(tx, order) => s.(txs := s.txs[tx := Txn(order, 0)])
    case Acquire(tx) => State(s.locks[Sought(s, tx) := tx], s.txs[tx := s.txs[tx].(got := s.txs[tx].got + 1)])
    case Relock(tx, item) => s.(locks := s.locks[item := tx])
    case Finish(tx) => State(map i | i in s.locks && s.locks[i] != tx :: s.locks[i], s.txs - {tx})
  }

  predicate Holds(t: Txn, item: Item) {
    exists k | 0 <= k < t.got && k < |t.order| :: t.order[k] == item
  }

  predicate Climbing(step: Step) { step.Start? ==> Climbs(step.order) }

  // --------------------------------------------------------------- invariant

  predicate TxOk(s: State, tx: Tx) {
    tx in s.txs ==> Climbs(s.txs[tx].order) && s.txs[tx].got <= |s.txs[tx].order|
  }

  /** A lock belongs to a running transaction that has taken it. */
  predicate LockOk(s: State, item: Item) {
    item in s.locks ==> s.locks[item] in s.txs && Holds(s.txs[s.locks[item]], item)
  }

  predicate HeldOk(s: State, tx: Tx, item: Item) {
    tx in s.txs && Holds(s.txs[tx], item) ==> item in s.locks && s.locks[item] == tx
  }

  ghost predicate Inv(s: State) {
    && (forall tx :: TxOk(s, tx))
    && (forall item :: LockOk(s, item))
    && (forall tx, item :: HeldOk(s, tx, item))
  }

  lemma AcquireKeeps(s: State, tx: Tx)
    requires Inv(s) && Enabled(s, Acquire(tx))
    ensures Inv(Next(s, Acquire(tx)))
  {
    var s', sought := Next(s, Acquire(tx)), Sought(s, tx);
    assert TxOk(s, tx);
    assert s'.txs[tx].order[s.txs[tx].got] == sought && Holds(s'.txs[tx], sought);
    forall t ensures TxOk(s', t) { assert TxOk(s, t); }
    forall item ensures LockOk(s', item) {
      assert LockOk(s, item);
      if item != sought && item in s.locks && s.locks[item] == tx { HoldsMore(s.txs[tx], item); }
    }
    forall t, item ensures HeldOk(s', t, item) {
      assert HeldOk(s, t, item) && HeldOk(s, t, sought);
      if t == tx && Holds(s'.txs[tx], item) && item != sought {
        var k :| 0 <= k < s'.txs[tx].got && k < |s'.txs[tx].order| && s'.txs[tx].order[k] == item;
        assert k < s.txs[tx].got;
      }
    }
  }

  lemma HoldsMore(t: Txn, item: Item)
    requires Holds(t, item)
    ensures Holds(t.(got := t.got + 1), item)
  {
    var k :| 0 <= k < t.got && k < |t.order| && t.order[k] == item;
    assert t.(got := t.got + 1).order[k] == item;
  }

  lemma StepKeeps(s: State, step: Step)
    requires Inv(s) && Enabled(s, step) && Climbing(step)
    ensures Inv(Next(s, step))
  {
    var s' := Next(s, step);
    match step
    case Start(tx, order) => {
      forall t ensures TxOk(s', t) { assert TxOk(s, t); }
      forall item ensures LockOk(s', item) { assert LockOk(s, item); }
      forall t, item ensures HeldOk(s', t, item) { assert HeldOk(s, t, item); }
    }
    case Acquire(tx) => AcquireKeeps(s, tx);
    case Relock(tx, item) => RelockChangesNothing(s, tx, item);
    case Finish(tx) => {
      forall t ensures TxOk(s', t) { assert TxOk(s, t); }
      forall item ensures LockOk(s', item) { assert LockOk(s, item); }
      forall t, item ensures HeldOk(s', t, item) { assert HeldOk(s, t, item); }
    }
  }

  /** The lock `record_movement` asks for is already held. */
  lemma RelockChangesNothing(s: State, tx: Tx, item: Item)
    requires Inv(s) && Enabled(s, Relock(tx, item))
    ensures Next(s, Relock(tx, item)) == s
  {
    assert HeldOk(s, tx, item);
    assert s.locks[item := tx] == s.locks;
  }

  // ----------------------------------------------------------- waiting is safe

  /** tx waits for a lock that `holder` has. */
  predicate WaitsFor(s: State, tx: Tx, holder: Tx) {
    && Seeking(s, tx) && Sought(s, tx) in s.locks
    && s.locks[Sought(s, tx)] == holder && holder != tx
  }

  /** tx waits for somebody. */
  predicate Blocked(s: State, tx: Tx) {
    Seeking(s, tx) && Sought(s, tx) in s.locks && s.locks[Sought(s, tx)] != tx
  }

  /** Who waits for a waiting transaction seeks a smaller id. */
  lemma WaitingClimbs(s: State, tx: Tx, holder: Tx)
    requires Inv(s) && WaitsFor(s, tx, holder) && Blocked(s, holder)
    ensures Sought(s, tx) < Sought(s, holder)
  {
    var t := s.txs[holder];
    assert LockOk(s, Sought(s, tx)) && TxOk(s, holder) && HeldOk(s, holder, Sought(s, holder));
    var k :| 0 <= k < t.got && k < |t.order| && t.order[k] == Sought(s, tx);
    assert !Holds(t, Sought(s, holder));
    assert t.order[t.got] !in t.order[..t.got];
  }

  predicate WaitingChain(s: State, chain: seq<Tx>) {
    forall k | 0 <= k < |chain| - 1 :: WaitsFor(s, chain[k], chain[k + 1])
  }

  lemma {:induction false} ChainClimbs(s: State, chain: seq<Tx>)
    requires Inv(s) && |chain| >= 2 && WaitingChain(s, chain)
    requires Blocked(s, chain[|chain| - 1])
    ensures Seeking(s, chain[0]) && Sought(s, chain[0]) < Sought(s, chain[|chain| - 1])
    decreases |chain|
  {
    assert WaitsFor(s, chain[0], chain[1]);
    if |chain| > 2 {
      assert WaitsFor(s, chain[1], chain[2]);
      forall k | 0 <= k < |chain[1..]| - 1 ensures WaitsFor(s, chain[1..][k], chain[1..][k + 1]) {
        assert WaitsFor(s, chain[k + 1], chain[k + 2]);
      }
      ChainClimbs(s, chain[1..]);
    }
    WaitingClimbs(s, chain[0], chain[1]);
  }

  /** No cycle of waiting transactions, of any length. */
  lemma NoCycle(s: State, chain: seq<Tx>)
    requires Inv(s) && |chain| >= 2 && WaitingChain(s, chain)
    ensures chain[0] != chain[|chain| - 1]
  {
    if chain[0] == chain[|chain| - 1] {
      assert WaitsFor(s, chain[0], chain[1]);
      ChainClimbs(s, chain);
      assert false;
    }
  }

  function Holder(s: State, tx: Tx): Tx
    requires Seeking(s, tx) && Sought(s, tx) in s.locks
  {
    s.locks[Sought(s, tx)]
  }

  /** Among any transactions closed under waiting, one can go on. */
  lemma {:induction false} SomeoneCanStep(s: State, tx: Tx, candidates: set<Tx>)
    requires Inv(s) && tx in s.txs && candidates <= s.txs.Keys
    requires forall t | t in s.txs && Seeking(s, t) && (Seeking(s, tx) ==> Sought(s, t) >= Sought(s, tx)) ::
               t in candidates
    ensures exists t :: t in s.txs && (Enabled(s, Acquire(t)) || Enabled(s, Finish(t)))
    decreases |candidates|
  {
    if Ready(s, tx) {
      assert Enabled(s, Finish(tx));
    } else if Enabled(s, Acquire(tx)) {
    } else {
      var holder := Holder(s, tx);
      assert LockOk(s, Sought(s, tx));
      if Ready(s, holder) {
        assert Enabled(s, Finish(holder));
      } else if Enabled(s, Acquire(holder)) {
      } else {
        WaitingClimbs(s, tx, holder);
        assert tx in candidates && |candidates - {tx}| < |candidates|;
        SomeoneCanStep(s, holder, candidates - {tx});
      }
    }
  }

  /** There are transactions, and none of them can take its next lock or finish. */
  ghost predicate Stuck(s: State) {
    s.txs != map[] && forall t | t in s.txs :: !Enabled(s, Acquire(t)) && !Enabled(s, Finish(t))
  }

  /** Never a deadlock: while a transaction is unfinished, some transaction can go on. */
  lemma NoDeadlock(s: State)
    requires Inv(s)
    ensures !Stuck(s)
  {
    if s.txs != map[] {
      var tx :| tx in s.txs;
      SomeoneCanStep(s, tx, s.txs.Keys);
    }
  }

  // -------------------------------------------------------------- whole runs

  function Exec(s: State, steps: seq<Step>): Option<State>
    decreases |steps|
  {
    if steps == [] then Some(s)
    else if Enabled(s, steps[0]) then Exec(Next(s, steps[0]), steps[1..])
    else None
  }

  const NOTHING := State(map[], map[])

  lemma {:induction false} RunKeeps(s: State, steps: seq<Step>)
    requires Inv(s) && Exec(s, steps).Some? && forall k | 0 <= k < |steps| :: Climbing(steps[k])
    ensures Inv(Exec(s, steps).value)
    decreases |steps|
  {
    if steps != [] {
      StepKeeps(s, steps[0]);
      forall k | 0 <= k < |steps[1..]| ensures Climbing(steps[1..][k]) { assert Climbing(steps[k + 1]); }
      RunKeeps(Next(s, steps[0]), steps[1..]);
    }
  }

  /** In every state that transactions whose locks climb can reach, waiting has no
      cycle and, unless all are done, somebody can go on. */
  lemma ClimbingNeverDeadlocks(steps: seq<Step>)
    requires Exec(NOTHING, steps).Some? && forall k | 0 <= k < |steps| :: Climbing(steps[k])
    ensures var s := Exec(NOTHING, steps).value;
            !Stuck(s) && forall chain | |chain| >= 2 && WaitingChain(s, chain) :: chain[0] != chain[|chain| - 1]
  {
    RunKeeps(NOTHING, steps);
    var s := Exec(NOTHING, steps).value;
    NoDeadlock(s);
    forall chain | |chain| >= 2 && WaitingChain(s, chain) ensures chain[0] != chain[|chain| - 1] {
      NoCycle(s, chain);
    }
  }

  /** Transactions of one `lock_items` call each. */
  ghost predicate OneCall(step: Step) { step.Start? ==> exists ids :: step.order == Canonical(ids) }

  lemma OneCallClimbs(step: Step)
    requires OneCall(step)
    ensures Climbing(step)
  {
    if step.Start? {
      var ids :| step.order == Canonical(ids);
      CanonicalOrder(ids);
      AscendingClimbs(Canonical(ids));
    }
  }

  lemma LockItemsNeverDeadlocks(steps: seq<Step>)
    requires Exec(NOTHING, steps).Some? && forall k | 0 <= k < |steps| :: OneCall(steps[k])
    ensures var s := Exec(NOTHING, steps).value;
            !Stuck(s) && forall chain | |chain| >= 2 && WaitingChain(s, chain) :: chain[0] != chain[|chain| - 1]
  {
    forall k | 0 <= k < |steps| ensures Climbing(steps[k]) {
      assert OneCall(steps[k]);
      OneCallClimbs(steps[k]);
    }
    ClimbingNeverDeadlocks(steps);
  }

  /** Locks still to be taken plus transactions still to finish. */
  ghost function Work(txs: map<Tx, Txn>): int {
    if txs == map[] then 0
    else
      var t :| t in txs;
      |txs[t].order| - txs[t].got + 1 + Work(txs - {t})
  }

  lemma {:induction false} WorkWithout(txs: map<Tx, Txn>, t: Tx)
    requires t in txs
    ensures Work(txs) == |txs[t].order| - txs[t].got + 1 + Work(txs - {t})
    decreases |txs|
  {
    var x :| x in txs && Work(txs) == |txs[x].order| - txs[x].got + 1 + Work(txs - {x});
    if x != t {
      WorkWithout(txs - {x}, t);
      WorkWithout(txs - {t}, x);
      assert txs - {x} - {t} == txs - {t} - {x};
    }
  }

  lemma {:induction false} WorkIsNotNegative(txs: map<Tx, Txn>)
    requires forall t | t in txs :: txs[t].got <= |txs[t].order|
    ensures Work(txs) >= 0
    decreases |txs|
  {
    if txs != map[] {
      var t :| t in txs;
      WorkWithout(txs, t);
      WorkIsNotNegative(txs - {t});
    }
  }

  /** Every step of a transaction that is not a repeated lock uses up work. */
  lemma StepUsesWork(s: State, step: Step)
    requires Inv(s) && Enabled(s, step) && (step.Acquire? || step.Finish?)
    ensures Work(Next(s, step).txs) < Work(s.txs)
  {
    var s' := Next(s, step);
    assert TxOk(s, step.tx);
    WorkWithout(s.txs, step.tx);
    match step
    case Acquire(tx) => {
      WorkWithout(s'.txs, tx);
      assert s'.txs - {tx} == s.txs - {tx};
    }
    case Finish(tx) =>
  }

  /** Whatever has happened, all transactions can still be brought to their end. */
  lemma {:induction false} EveryoneCanFinish(s: State)
    requires Inv(s)
    ensures exists steps :: Exec(s, steps).Some? && Exec(s, steps).value.txs == map[]
    decreases Work(s.txs)
  {
    if s.txs == map[] {
      assert Exec(s, []) == Some(s);
    } else {
      NoDeadlock(s);
      var t :| t in s.txs && (Enabled(s, Acquire(t)) || Enabled(s, Finish(t)));
      var step := if Enabled(s, Acquire(t)) then Acquire(t) else Finish(t);
      StepKeeps(s, step);
      StepUsesWork(s, step);
      forall u | u in s.txs ensures s.txs[u].got <= |s.txs[u].order| { assert TxOk(s, u); }
      WorkIsNotNegative(s.txs);
      EveryoneCanFinish(Next(s, step));
      var rest :| Exec(Next(s, step), rest).Some? && Exec(Next(s, step), rest).value.txs == map[];
      assert ([step] + rest)[1..] == rest;
      assert Exec(s, [step] + rest) == Exec(Next(s, step), rest);
    }
  }

  /** Without the common order two transactions that want the same two items can
      block each other for good. */
  lemma UnorderedCanDeadlock(a: Item, b: Item)
    requires a != b
    ensures var steps := [Start(1, [a, b]), Start(2, [b, a]), Acquire(1), Acquire(2)];
            && Exec(NOTHING, steps).Some?
            && var s := Exec(NOTHING, steps).value;
               WaitsFor(s, 1, 2) && WaitsFor(s, 2, 1)
               && forall t | t in s.txs :: !Enabled(s, Acquire(t)) && !Enabled(s, Finish(t))
  {
    var steps := [Start(1, [a, b]), Start(2, [b, a]), Acquire(1), Acquire(2)];
    var s1 := Next(NOTHING, steps[0]);
    var s2 := Next(s1, steps[1]);
    var s3 := Next(s2, steps[2]);
    var s4 := Next(s3, steps[3]);
    assert s4 == State(map[a := 1, b := 2], map[1 := Txn([a, b], 1), 2 := Txn([b, a], 1)]);
    assert steps[1..][1..][1..][1..] == [];
    assert Exec(s3, steps[1..][1..][1..]) == Some(s4);
    assert Exec(s2, steps[1..][1..]) == Some(s4);
    assert Exec(s1, steps[1..]) == Some(s4);
  }

  // -------------------------------------------- an order that does not climb

  /** One transaction takes `low` and wants `high`, the other is `n` locks along. */
  function Facing(low: Item, high: Item, order: seq<Item>, n: nat): State
    requires n <= |order|
  {
    State(map i | i in {low} + Members(order[..n]) :: if i == low then 1 else 2,
          map[1 := Txn([low, high], 1), 2 := Txn(order, n)])
  }

  function Members(ids: seq<Item>): set<Item> { set i | i in ids }

  function Acquires(n: nat): seq<Step> { seq(n, _ => Acquire(2)) }

  lemma FacingAdvances(low: Item, high: Item, order: seq<Item>, n: nat)
    requires n < |order| && low != order[n] && low !in order[..n]
    ensures Enabled(Facing(low, high, order, n), Acquire(2))
    ensures Next(Facing(low, high, order, n), Acquire(2)) == Facing(low, high, order, n + 1)
  {
    assert order[..n + 1] == order[..n] + [order[n]];
    assert Members(order[..n + 1]) == Members(order[..n]) + {order[n]};
  }

  predicate StepsTo(s: State, step: Step, s': State) { Enabled(s, step) && s' == Next(s, step) }

  lemma {:induction false} ExecFollows(states: seq<State>, steps: seq<Step>)
    requires |states| == |steps| + 1
    requires forall i | 0 <= i < |steps| :: StepsTo(states[i], steps[i], states[i + 1])
    ensures Exec(states[0], steps) == Some(states[|steps|])
    decreases |steps|
  {
    if steps != [] {
      assert StepsTo(states[0], steps[0], states[1]);
      forall i | 0 <= i < |steps[1..]| ensures StepsTo(states[1..][i], steps[1..][i], states[1..][i + 1]) {
        assert StepsTo(states[i + 1], steps[i + 1], states[i + 2]);
      }
      ExecFollows(states[1..], steps[1..]);
    }
  }

  lemma FacingReaches(low: Item, high: Item, order: seq<Item>, n: nat)
    requires n <= |order| && forall i | 0 <= i < n :: order[i] != low
    ensures Exec(Facing(low, high, order, 0), Acquires(n)) == Some(Facing(low, high, order, n))
  {
    var states := seq(n + 1, i requires 0 <= i <= n => Facing(low, high, order, i));
    forall i | 0 <= i < n ensures StepsTo(states[i], Acquires(n)[i], states[i + 1]) {
      FacingAdvances(low, high, order, i);
    }
    ExecFollows(states, Acquires(n));
  }

  function FacingRun(low: Item, high: Item, order: seq<Item>, n: nat): seq<Step> {
    [Start(1, [low, high]), Acquire(1), Start(2, order)] + Acquires(n)
  }

  lemma FacingStarts(low: Item, high: Item, order: seq<Item>, n: nat)
    ensures Exec(NOTHING, FacingRun(low, high, order, n)) == Exec(Facing(low, high, order, 0), Acquires(n))
  {
    var steps := FacingRun(low, high, order, n);
    var s1 := Next(NOTHING, steps[0]);
    var s2 := Next(s1, steps[1]);
    assert s2 == State(map[low := 1], map[1 := Txn([low, high], 1)]);
    assert Next(s2, steps[2]) == Facing(low, high, order, 0);
    assert steps[1..][1..][1..] == Acquires(n);
    assert Exec(s2, steps[1..][1..]) == Exec(Facing(low, high, order, 0), Acquires(n));
    assert Exec(s1, steps[1..]) == Exec(Facing(low, high, order, 0), Acquires(n));
  }

  lemma FacingIsStuck(low: Item, high: Item, order: seq<Item>, n: nat)
    requires n < |order| && order[n] == low && high in order[..n] && low !in order[..n]
    ensures Stuck(Facing(low, high, order, n))
  {
    var s := Facing(low, high, order, n);
    assert high in Members(order[..n]) && s.locks[high] == 2 && s.locks[low] == 1;
    assert Sought(s, 1) == high && Sought(s, 2) == low && s.txs.Keys == {1, 2};
  }

  /** The steps are of one-call transactions and of ones with a given order. */
  ghost predicate Mixes(steps: seq<Step>, order: seq<Item>) {
    forall k | 0 <= k < |steps| :: OneCall(steps[k]) || (steps[k].Start? && steps[k].order == order)
  }

  ghost predicate CanDeadlock(order: seq<Item>) {
    exists steps :: Mixes(steps, order) && Exec(NOTHING, steps).Some? && Stuck(Exec(NOTHING, steps).value)
  }

  lemma PairIsOneCall(low: Item, high: Item)
    requires low < high
    ensures Canonical([low, high]) == [low, high]
  {
    assert [low, high][1..] == [high] && [high][1..] == [];
    assert Canonical([high]) == Insert(high, Canonical([])) == [high];
    assert Canonical([low, high]) == Insert(low, [high]);
  }

  lemma FacingMixes(low: Item, high: Item, order: seq<Item>, n: nat)
    requires low < high
    ensures Mixes(FacingRun(low, high, order, n), order)
  {
    var steps := FacingRun(low, high, order, n);
    PairIsOneCall(low, high);
    assert OneCall(steps[0]);
  }

  lemma DescentDeadlocks(order: seq<Item>)
    requires !Climbs(order)
    ensures CanDeadlock(order)
  {
    var i, n :| 0 <= i < n < |order| && order[i] >= order[n] && order[n] !in order[..n];
    assert order[..n][i] == order[i];
    FacingDeadlocks(order[n], order[i], order, n);
  }

  lemma FacingDeadlocks(low: Item, high: Item, order: seq<Item>, n: nat)
    requires n < |order| && order[n] == low < high && high in order[..n] && low !in order[..n]
    ensures CanDeadlock(order)
  {
    FacingStarts(low, high, order, n);
    FacingReaches(low, high, order, n);
    FacingIsStuck(low, high, order, n);
    FacingMixes(low, high, order, n);
  }

  /** Beside transactions of one call each, transactions that take their locks in
      some other order can get into a deadlock exactly when it does not climb. */
  lemma DeadlockIff(order: seq<Item>)
    ensures CanDeadlock(order) <==> !Climbs(order)
  {
    if !Climbs(order) { DescentDeadlocks(order); }
    if Climbs(order) {
      forall steps | Mixes(steps, order) && Exec(NOTHING, steps).Some? ensures !Stuck(Exec(NOTHING, steps).value) {
        forall k | 0 <= k < |steps| ensures Climbing(steps[k]) {
          if OneCall(steps[k]) { OneCallClimbs(steps[k]); }
        }
        ClimbingNeverDeadlocks(steps);
      }
    }
  }

  /** So it is with two calls in one transaction, over the items of a voided line and
      then over those of its replacement. */
  lemma VoidingCanDeadlockIff(a: seq<Item>, b: seq<Item>)
    ensures CanDeadlock(TwoCalls(a, b)) <==> !NewOnesLarger(a, b)
  {
    DeadlockIff(TwoCalls(a, b));
    TwoCallsClimbIff(a, b);
  }
}
