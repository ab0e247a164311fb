/**
 The quota of a subscription plan under concurrent requests. Creations lock the
 tenant row, count and insert in one transaction; invitations become users, rows
 are deleted, switched off and on again by transactions that do not count.
 */
module PlanLimits {
  import opened Options

  // ------------------------------------------------------------------- counting

  datatype Resource = Tables | Registers | Users | Products | PaymentMethods

  /** `tenant` matters for the shared table of users, `active` for payment methods. */
  datatype Row = Row(tenant: int, active: bool)

  datatype Invitation = Invitation(tenant: int, pending: bool)

  predicate Occupies(resource: Resource, tenant: int, row: Row) {
    (resource == Users ==> row.tenant == tenant) && (resource == PaymentMethods ==> row.active)
  }

  /** The rows among the first n that count. */
  function Occupying(resource: Resource, tenant: int, rows: seq<Row>, n: nat): set<nat>
    requires n <= |rows|
  {
    set i: nat | i < n && Occupies(resource, tenant, rows[i])
  }

  predicate Reserves(tenant: int, invitation: Invitation) { invitation.tenant == tenant && invitation.pending }

  function Reserving(tenant: int, invitations: seq<Invitation>, n: nat): set<nat>
    requires n <= |invitations|
  {
    set i: nat | i < n && Reserves(tenant, invitations[i])
  }

  /** What a resource uses of its quota; users share theirs with pending invitations. */
  function Usage(resource: Resource, tenant: int, rows: seq<Row>, invitations: seq<Invitation>): nat {
    |Occupying(resource, tenant, rows, |rows|)|
    + if resource == Users then |Reserving(tenant, invitations, |invitations|)| else 0
  }

  method CountOccupying(resource: Resource, tenant: int, rows: seq<Row>) returns (count: nat)
    ensures count == |Occupying(resource, tenant, rows, |rows|)|
  {
    count := 0;
    for n := 0 to |rows|
      invariant count == |Occupying(resource, tenant, rows, n)|
    {
      if Occupies(resource, tenant, rows[n]) {
        assert Occupying(resource, tenant, rows, n + 1) == Occupying(resource, tenant, rows, n) + {n};
        count := count + 1;
      } else {
        assert Occupying(resource, tenant, rows, n + 1) == Occupying(resource, tenant, rows, n);
      }
    }
  }

  method CountPending(tenant: int, invitations: seq<Invitation>) returns (count: nat)
    ensures count == |Reserving(tenant, invitations, |invitations|)|
  {
    count := 0;
    for n := 0 to |invitations|
      invariant count == |Reserving(tenant, invitations, n)|
    {
      if Reserves(tenant, invitations[n]) {
        assert Reserving(tenant, invitations, n + 1) == Reserving(tenant, invitations, n) + {n};
        count := count + 1;
      } else {
        assert Reserving(tenant, invitations, n + 1) == Reserving(tenant, invitations, n);
      }
    }
  }

  /** `_count_resource` */
  method CountResource(resource: Resource, tenant: int, rows: seq<Row>, invitations: seq<Invitation>)
    returns (count: nat)
    ensures count == Usage(resource, tenant, rows, invitations)
  {
    count := CountOccupying(resource, tenant, rows);
    if resource == Users {
      var reserved := CountPending(tenant, invitations);
      count := count + reserved;
    }
  }

  datatype Verdict = Allowed | PlanExpired | LimitReached

  /** `enforce_plan_limit`, once the tenant row is locked and nobody interferes. */
  method EnforcePlanLimit(resource: Resource, tenant: int, due: Option<int>, now: int, limit: Option<int>,
                          rows: seq<Row>, invitations: seq<Invitation>) returns (r: Verdict)
    ensures r.PlanExpired? <==> due.Some? && due.value < now
    ensures r.Allowed? <==>
              !r.PlanExpired? && (limit.Some? ==> Usage(resource, tenant, rows, invitations) < limit.value)
  {
    if due.Some? && due.value < now { return PlanExpired; }
    if limit.None? { return Allowed; }
    var count := CountResource(resource, tenant, rows, invitations);
    r := if count >= limit.value then LimitReached else Allowed;
  }

  // ---------------------------------------------------------- concurrent requests

  type Tx = nat

  /** Creator: holds the tenant row from its lock on. `rows` and `reserved` are its
      two counts, `bound` the limit it read, `revived` how many rows had been
      switched back on when it counted.
      Consumer: has locked one pending invitation; `inserted` once its new user
      refers to the tenant row.
      Switcher: has seen that the row it switches off is not the last one on. */
  datatype Txn =
    | Creator(stage: Stage, bound: Option<int>, rows: int, reserved: int, revived: int, invites: bool)
    | Consumer(inserted: bool)
    | Switcher

  datatype Stage = Begun | Locked | Counted | Cleared

  /** `keyShare`: inserting a row that refers to the tenant locks the tenant row
      against FOR UPDATE, as a foreign key does. */
  datatype State = State(
    used: int, reserved: int, off: int, revived: int,
    limit: Option<int>, expired: bool,
    owner: Option<Tx>, sharers: set<Tx>, txs: map<Tx, Txn>)

  datatype Step =
    | Begin(tx: Tx, invites: bool)
    | Lock(tx: Tx)
    | CountRows(tx: Tx)
    | CountReserved(tx: Tx)
    | Commit(tx: Tx)
    | BeginConsume(tx: Tx)
    | InsertUser(tx: Tx)
    | CommitConsume(tx: Tx)
    | Abort(tx: Tx)
    | Delete
    | Cancel
    | BeginOff(tx: Tx)
    | CommitOff(tx: Tx)
    | SwitchOn
    | ChangePlan(limit: Option<int>, expired: bool)

  predicate IsCreator(s: State, tx: Tx, stage: Stage) { tx in s.txs && s.txs[tx].Creator? && s.txs[tx].stage == stage }

  predicate IsConsumer(s: State, tx: Tx) { tx in s.txs && s.txs[tx].Consumer? }

  function Consumers(s: State): set<Tx> { set t | t in s.txs && s.txs[t].Consumer? }

  predicate Enabled(keyShare: bool, s: State, step: Step) {
    match step
    case Begin(tx, _) => tx !in s.txs
    case Lock(tx) => IsCreator(s, tx, Begun) && s.owner.None? && s.sharers == {}
    case CountRows(tx) => IsCreator(s, tx, Locked)
    case CountReserved(tx) => IsCreator(s, tx, Counted)
    case Commit(tx) => IsCreator(s, tx, Cleared)
    case BeginConsume(tx) => tx !in s.txs && |Consumers(s)| < s.reserved
    case InsertUser(tx) => IsConsumer(s, tx) && !s.txs[tx].inserted && (keyShare ==> s.owner.None?)
    case CommitConsume(tx) => IsConsumer(s, tx) && s.txs[tx].inserted
    case Abort(tx) => tx in s.txs
    case Delete => s.used > 0
    case Cancel => |Consumers(s)| < s.reserved
    // Two transactions may each see the other's row on.
    case BeginOff(tx) => tx !in s.txs && s.used > 1
    case CommitOff(tx) => tx in s.txs && s.txs[tx].Switcher? && s.used > 0
    case SwitchOn => s.off > 0
    // The limit is not lowered.
    case ChangePlan(limit, _) => limit.None? || (s.limit.Some? && s.limit.value <= limit.value)
  }

  function End(s: State, tx: Tx): State {
    s.(owner := if s.owner == Some(tx) then None else s.owner, sharers := s.sharers - {tx}, txs := s.txs - {tx})
  }

  function Next(keyShare: bool, s: State, step: Step): State
    requires Enabled(keyShare, s, step)
  {
    match step
    case Begin(tx, invites) => s.(txs := s.txs[tx := Creator(Begun, None, 0, 0, 0, invites)])
    case Lock(tx) =>
      if s.expired then End(s, tx)
      else
        var stage := if s.limit.None? then Cleared else Locked;
        s.(owner := Some(tx), txs := s.txs[tx := s.txs[tx].(stage := stage, bound := s.limit)])
    case CountRows(tx) =>
      s.(txs := s.txs[tx := s.txs[tx].(stage := Counted, rows := s.used, revived := s.revived)])
    case CountReserved(tx) =>
      if s.txs[tx].bound.Some? && s.txs[tx].rows + s.reserved >= s.txs[tx].bound.value then End(s, tx)
      else s.(txs := s.txs[tx := s.txs[tx].(stage := Cleared, reserved := s.reserved)])
    case Commit(tx) =>
      if s.txs[tx].invites then End(s.(reserved := s.reserved + 1), tx) else End(s.(used := s.used + 1), tx)
    case BeginConsume(tx) => s.(txs := s.txs[tx := Consumer(false)])
    case InsertUser(tx) =>
      s.(txs := s.txs[tx := Consumer(true)], sharers := if keyShare then s.sharers + {tx} else s.sharers)
    case CommitConsume(tx) => End(s.(used := s.used + 1, reserved := s.reserved - 1), tx)
    case Abort(tx) => End(s, tx)
    case Delete => s.(used := s.used - 1)
    case Cancel => s.(reserved := s.reserved - 1)
    case BeginOff(tx) => s.(txs := s.txs[tx := Switcher])
    case CommitOff(tx) => End(s.(used := s.used - 1, off := s.off + 1), tx)
    case SwitchOn => s.(used := s.used + 1, off := s.off - 1, revived := s.revived + 1)
    case ChangePlan(limit, expired) => s.(limit := limit, expired := expired)
  }

  // ------------------------------------------------------------------ invariant

  /** A limit still in force is at least the one read before. */
  predicate NotLowered(read: Option<int>, limit: Option<int>) {
    limit.Some? ==> read.Some? && read.value <= limit.value
  }

  /** The tenant row belongs to the creators past their lock, one at a time; while
      it does, no consumer can commit, so what has been counted can only have
      shrunk, except for rows switched back on. */
  predicate TxOk(s: State, tx: Tx) {
    tx in s.txs ==>
      match s.txs[tx]
      case Consumer(inserted) => inserted ==> tx in s.sharers
      case Switcher => true
      case Creator(stage, bound, rows, reserved, revived, _) =>
        && (stage != Begun ==> s.owner == Some(tx) && NotLowered(bound, s.limit))
        && (stage == Locked || stage == Counted ==> bound.Some?)
        && (stage == Counted || (stage == Cleared && bound.Some?) ==>
              s.used <= rows + (s.revived - revived) && revived >= 0)
        && (stage == Cleared && bound.Some? ==> s.reserved <= reserved && rows + reserved < bound.value)
  }

  predicate OwnerOk(s: State) {
    && (s.owner.Some? ==>
          s.owner.value in s.txs && s.txs[s.owner.value].Creator? && s.txs[s.owner.value].stage != Begun)
    && (s.owner.Some? ==> s.sharers == {})
    && (forall t | t in s.sharers :: t in s.txs && s.txs[t].Consumer?)
  }

  predicate WithinQuota(s: State) { s.limit.Some? ==> s.used + s.reserved <= s.limit.value + s.revived }

  ghost predicate Inv(s: State) {
    && s.revived >= 0
    && WithinQuota(s)
    && OwnerOk(s)
    && (forall tx :: TxOk(s, tx))
  }

  lemma EndKeeps(s: State, tx: Tx)
    requires Inv(s)
    ensures Inv(End(s, tx))
  {
    forall t ensures TxOk(End(s, tx), t) { assert TxOk(s, t); }
  }

  lemma CreatorStepKeeps(s: State, step: Step)
    requires Inv(s) && Enabled(true, s, step)
    requires step.Begin? || step.Lock? || step.CountRows? || step.CountReserved?
    ensures Inv(Next(true, s, step))
  {
    var s' := Next(true, s, step);
    EndKeeps(s, step.tx);
    assert TxOk(s, step.tx);
    forall t ensures TxOk(s', t) { assert TxOk(s, t); }
  }

  lemma CommitKeeps(s: State, tx: Tx)
    requires Inv(s) && Enabled(true, s, Commit(tx))
    ensures Inv(Next(true, s, Commit(tx)))
  {
    var s' := Next(true, s, Commit(tx));
    assert TxOk(s, tx);
    forall t ensures TxOk(s', t) { assert TxOk(s, t); }
  }

  lemma ConsumerStepKeeps(s: State, step: Step)
    requires Inv(s) && Enabled(true, s, step)
    requires step.BeginConsume? || step.InsertUser? || step.CommitConsume?
    ensures Inv(Next(true, s, step))
  {
    var s' := Next(true, s, step);
    assert TxOk(s, step.tx);
    forall t ensures TxOk(s', t) { assert TxOk(s, t); }
  }

  lemma SwitcherStepKeeps(s: State, step: Step)
    requires Inv(s) && Enabled(true, s, step) && (step.BeginOff? || step.CommitOff?)
    ensures Inv(Next(true, s, step))
  {
    var s' := Next(true, s, step);
    assert TxOk(s, step.tx);
    forall t ensures TxOk(s', t) { assert TxOk(s, t); }
  }

  lemma OtherStepKeeps(s: State, step: Step)
    requires Inv(s) && Enabled(true, s, step)
    requires step.Delete? || step.Cancel? || step.SwitchOn? || step.ChangePlan?
    ensures Inv(Next(true, s, step))
  {
    var s' := Next(true, s, step);
    forall t ensures TxOk(s', t) { assert TxOk(s, t); }
  }

  function Exec(keyShare: bool, s: State, steps: seq<Step>): Option<State>
    decreases |steps|
  {
    if steps == [] then Some(s)
    else if Enabled(keyShare, s, steps[0]) then Exec(keyShare, Next(keyShare, s, steps[0]), steps[1..])
    else None
  }

  lemma {:induction false} RunKeeps(s: State, steps: seq<Step>)
    requires Inv(s) && Exec(true, s, steps).Some?
    ensures Inv(Exec(true, s, steps).value)
    decreases |steps|
  {
    if steps != [] {
      match steps[0] {
        case Begin(_, _) => CreatorStepKeeps(s, steps[0]);
        case Lock(_) => CreatorStepKeeps(s, steps[0]);
        case CountRows(_) => CreatorStepKeeps(s, steps[0]);
        case CountReserved(_) => CreatorStepKeeps(s, steps[0]);
        case Commit(tx) => CommitKeeps(s, tx);
        case BeginConsume(_) => ConsumerStepKeeps(s, steps[0]);
        case InsertUser(_) => ConsumerStepKeeps(s, steps[0]);
        case CommitConsume(_) => ConsumerStepKeeps(s, steps[0]);
        case Abort(tx) => EndKeeps(s, tx);
        case BeginOff(_) => SwitcherStepKeeps(s, steps[0]);
        case CommitOff(_) => SwitcherStepKeeps(s, steps[0]);
        case _ => OtherStepKeeps(s, steps[0]);
      }
      RunKeeps(Next(true, s, steps[0]), steps[1..]);
    }
  }

  /** A tenant at rest that keeps within its plan. */
  predicate AtRest(s: State) {
    s.owner.None? && s.sharers == {} && s.txs == map[] && s.revived == 0
    && (s.limit.Some? ==> s.used + s.reserved <= s.limit.value)
  }

  /** In every run the committed rows and reservations exceed the limit by at most
      the rows that were switched back on, which is the one path without a check;
      resources that cannot be switched never exceed it. */
  lemma QuotaHolds(start: State, steps: seq<Step>)
    requires AtRest(start) && Exec(true, start, steps).Some?
    ensures var s := Exec(true, start, steps).value;
            s.limit.Some? ==> s.used + s.reserved <= s.limit.value + s.revived
    ensures (forall k | 0 <= k < |steps| :: !steps[k].SwitchOn?) ==>
              var s := Exec(true, start, steps).value;
              s.limit.Some? ==> s.used + s.reserved <= s.limit.value
  {
    RunKeeps(start, steps);
    if forall k | 0 <= k < |steps| :: !steps[k].SwitchOn? { NobodyRevived(start, steps); }
  }

  lemma {:induction false} NobodyRevived(s: State, steps: seq<Step>)
    requires Exec(true, s, steps).Some? && forall k | 0 <= k < |steps| :: !steps[k].SwitchOn?
    ensures Exec(true, s, steps).value.revived == s.revived
    decreases |steps|
  {
    if steps != [] {
      assert !steps[0].SwitchOn?;
      forall k | 0 <= k < |steps[1..]| ensures !steps[1..][k].SwitchOn? { assert steps[1..][k] == steps[k + 1]; }
      NobodyRevived(Next(true, s, steps[0]), steps[1..]);
    }
  }

  // ------------------------------------------------------- what the bound rests on

  predicate Leads(keyShare: bool, s: State, step: Step, s': State) {
    Enabled(keyShare, s, step) && Next(keyShare, s, step) == s'
  }

  /** A run given by the states it passes through. */
  lemma {:induction false} Chain(keyShare: bool, states: seq<State>, steps: seq<Step>)
    requires |states| == |steps| + 1
    requires forall i | 0 <= i < |steps| :: Leads(keyShare, states[i], steps[i], states[i + 1])
    ensures Exec(keyShare, states[0], steps) == Some(states[|steps|])
    decreases |steps|
  {
    if steps != [] {
      assert Leads(keyShare, states[0], steps[0], states[1]);
      forall i | 0 <= i < |steps| - 1 ensures Leads(keyShare, states[1..][i], steps[1..][i], states[1..][i + 1]) {
        assert Leads(keyShare, states[i + 1], steps[i + 1], states[i + 2]);
      }
      Chain(keyShare, states[1..], steps[1..]);
    }
  }

  function Full(limit: int): State { State(limit, 0, 0, 0, Some(limit), false, None, {}, map[]) }

  function Alone(s: State, stage: Stage, rows: int, invites: bool): State {
    s.(owner := if stage == Begun then None else Some(1),
       txs := map[1 := Creator(stage, if stage == Begun then None else s.limit, rows,
                               if stage == Cleared then s.reserved else 0, 0, invites)])
  }

  lemma {:induction false} ExecConcat(keyShare: bool, s: State, a: seq<Step>, b: seq<Step>)
    requires Exec(keyShare, s, a).Some?
    ensures Exec(keyShare, s, a + b) == Exec(keyShare, Exec(keyShare, s, a).value, b)
    decreases |a|
  {
    if a == [] {
      assert a + b == b;
    } else {
      assert (a + b)[1..] == a[1..] + b;
      ExecConcat(keyShare, Next(keyShare, s, a[0]), a[1..], b);
    }
  }

  const CREATION := [Begin(1, false), Lock(1), Step.CountRows(1), CountReserved(1), Commit(1)]

  /** Alone and below the limit, a creation goes through. */
  lemma CreationGoesThrough(s: State)
    requires AtRest(s) && !s.expired && s.limit.Some? && s.used + s.reserved < s.limit.value
    ensures Exec(true, s, CREATION) == Some(s.(used := s.used + 1))
  {
    var states := [s, Alone(s, Begun, 0, false), Alone(s, Locked, 0, false), Alone(s, Counted, s.used, false),
                   Alone(s, Cleared, s.used, false), s.(used := s.used + 1)];
    assert Leads(true, states[0], CREATION[0], states[1]);
    assert Leads(true, states[1], CREATION[1], states[2]);
    assert Leads(true, states[2], CREATION[2], states[3]);
    assert Leads(true, states[3], CREATION[3], states[4]);
    assert Leads(true, states[4], CREATION[4], states[5]) by {
      assert states[4].txs - {1} == map[];
      assert states[4].sharers - {1} == {};
    }
    Chain(true, states, CREATION);
  }

  /** The plan has room for one more. */
  predicate Room(s: State) { !s.expired && (s.limit.Some? ==> s.used + s.reserved < s.limit.value) }

  /** The steps of a creation or an invitation that nobody disturbs. */
  function Creating(s: State, invites: bool): seq<Step> {
    [Begin(1, invites), Lock(1)]
    + (if s.expired || s.limit.None? then [] else [Step.CountRows(1), CountReserved(1)])
    + (if Room(s) then [Commit(1)] else [])
  }

  /** Alone, a creation or an invitation adds its row exactly if the plan has not
      expired and has no limit or room below it; otherwise it leaves no trace. */
  lemma LoneCreation(s: State, invites: bool)
    requires s.owner.None? && s.sharers == {} && s.txs == map[]
    ensures Exec(true, s, Creating(s, invites))
            == Some(if !Room(s) then s
                    else if invites then s.(reserved := s.reserved + 1)
                    else s.(used := s.used + 1))
  {
    var begun, steps := Alone(s, Begun, 0, invites), Creating(s, invites);
    assert Leads(true, s, steps[0], begun);
    if s.expired {
      assert Leads(true, begun, steps[1], s);
      Chain(true, [s, begun, s], steps);
    } else if s.limit.None? {
      var cleared := s.(owner := Some(1), txs := map[1 := Creator(Cleared, None, 0, 0, 0, invites)]);
      assert Leads(true, begun, steps[1], cleared);
      CommitEnds(s, cleared, invites);
      Chain(true, [s, begun, cleared, Next(true, cleared, Commit(1))], steps);
    } else {
      LimitedCreation(s, invites);
    }
  }

  lemma CommitEnds(s: State, cleared: State, invites: bool)
    requires s.owner.None? && s.sharers == {} && s.txs == map[]
    requires cleared == s.(owner := Some(1), txs := cleared.txs) && IsCreator(cleared, 1, Cleared)
    requires cleared.txs.Keys == {1} && cleared.txs[1].invites == invites
    ensures Leads(true, cleared, Commit(1),
                  if invites then s.(reserved := s.reserved + 1) else s.(used := s.used + 1))
  {
    assert cleared.txs - {1} == map[];
  }

  lemma LimitedCreation(s: State, invites: bool)
    requires s.owner.None? && s.sharers == {} && s.txs == map[] && !s.expired && s.limit.Some?
    ensures Exec(true, s, Creating(s, invites))
            == Some(if !Room(s) then s
                    else if invites then s.(reserved := s.reserved + 1)
                    else s.(used := s.used + 1))
  {
    var steps := Creating(s, invites);
    var begun, locked := Alone(s, Begun, 0, invites), Alone(s, Locked, 0, invites);
    var counted := s.(owner := Some(1), txs := map[1 := Creator(Counted, s.limit, s.used, 0, s.revived, invites)]);
    var cleared := counted.(txs := map[1 := counted.txs[1].(stage := Cleared, reserved := s.reserved)]);
    assert Leads(true, s, steps[0], begun) && Leads(true, begun, steps[1], locked);
    assert Leads(true, locked, steps[2], counted);
    if Room(s) {
      assert Leads(true, counted, steps[3], cleared);
      CommitEnds(s, cleared, invites);
      Chain(true, [s, begun, locked, counted, cleared, Next(true, cleared, Commit(1))], steps);
    } else {
      assert Leads(true, counted, steps[3], s);
      Chain(true, [s, begun, locked, counted, s], steps);
    }
  }

  const SWITCHED_OFF := [BeginOff(2), CommitOff(2)]

  lemma SwitchingOffRuns(limit: int, off: nat)
    requires limit > 1
    ensures Exec(true, Full(limit).(off := off), SWITCHED_OFF)
            == Some(Full(limit).(used := limit - 1, off := off + 1))
  {
    var s := Full(limit).(off := off);
    var states := [s, s.(txs := map[2 := Switcher]), Full(limit).(used := limit - 1, off := off + 1)];
    assert Leads(true, states[0], SWITCHED_OFF[0], states[1]);
    assert Leads(true, states[1], SWITCHED_OFF[1], states[2]) by {
      assert states[1].txs - {2} == map[];
      assert states[1].sharers - {2} == {};
    }
    Chain(true, states, SWITCHED_OFF);
  }

  const REPLACED := SWITCHED_OFF + CREATION

  lemma ReplacedRuns(limit: int, off: nat)
    requires limit > 1
    ensures Exec(true, Full(limit).(off := off), REPLACED) == Some(Full(limit).(off := off + 1))
  {
    SwitchingOffRuns(limit, off);
    CreationGoesThrough(Full(limit).(used := limit - 1, off := off + 1));
    ExecConcat(true, Full(limit).(off := off), SWITCHED_OFF, CREATION);
  }

  /** n rows are switched off, and each is replaced by a new one. */
  function Replacements(n: nat): seq<Step> {
    if n == 0 then [] else Replacements(n - 1) + REPLACED
  }

  lemma {:induction false} ReplacementsRun(limit: int, n: nat)
    requires limit > 1
    ensures Exec(true, Full(limit), Replacements(n)) == Some(Full(limit).(off := n))
  {
    if n > 0 {
      ReplacementsRun(limit, n - 1);
      ReplacedRuns(limit, n - 1);
      ExecConcat(true, Full(limit), Replacements(n - 1), REPLACED);
    }
  }

  function Reactivations(n: nat): seq<Step> { seq(n, _ => SwitchOn) }

  lemma ReactivationsRun(limit: int, n: nat)
    ensures Exec(true, Full(limit).(off := n), Reactivations(n))
            == Some(Full(limit).(used := limit + n, revived := n))
  {
    var states := seq(n + 1, i => Full(limit).(used := limit + i, off := n - i, revived := i));
    forall i | 0 <= i < n ensures Leads(true, states[i], Reactivations(n)[i], states[i + 1]) {}
    Chain(true, states, Reactivations(n));
  }

  /** At the limit, with n rows off, switching them on leaves n too many; and such a
      state is reached from any limit above one, by switching n rows off one by one
      and creating another for each. The last row on cannot be switched off. */
  lemma SwitchingOnPassesTheLimit(limit: int, n: nat)
    requires limit > 0
    ensures AtRest(Full(limit)) && AtRest(Full(limit).(off := n))
    ensures Exec(true, Full(limit).(off := n), Reactivations(n))
            == Some(Full(limit).(used := limit + n, revived := n))
    ensures limit > 1 ==> Exec(true, Full(limit), Replacements(n) + Reactivations(n))
                          == Some(Full(limit).(used := limit + n, revived := n))
    ensures limit == 1 ==> !Enabled(true, Full(limit), BeginOff(2))
  {
    ReactivationsRun(limit, n);
    if limit > 1 {
      ReplacementsRun(limit, n);
      ExecConcat(true, Full(limit), Replacements(n), Reactivations(n));
    }
  }

  function Invited(limit: int): State { State(limit - 1, 1, 0, 0, Some(limit), false, None, {}, map[]) }

  function Joined(s: State, inserted: bool): State { s.(txs := s.txs[2 := Consumer(inserted)]) }

  /** A creator has counted the users and an invitation is being consumed. */
  lemma UntilTheConsumer(keyShare: bool, limit: int)
    requires limit > 0
    ensures Exec(keyShare, Invited(limit), [Begin(1, true), Lock(1), CountRows(1), BeginConsume(2)])
            == Some(Joined(Alone(Invited(limit), Counted, limit - 1, true), false))
  {
    var s0 := Invited(limit);
    var steps := [Begin(1, true), Lock(1), CountRows(1), BeginConsume(2)];
    var states := [s0, Alone(s0, Begun, 0, true), Alone(s0, Locked, 0, true), Alone(s0, Counted, limit - 1, true),
                   Joined(Alone(s0, Counted, limit - 1, true), false)];
    assert Leads(keyShare, states[0], steps[0], states[1]);
    assert Leads(keyShare, states[1], steps[1], states[2]);
    assert Leads(keyShare, states[2], steps[2], states[3]);
    assert Leads(keyShare, states[3], steps[3], states[4]) by { assert Consumers(states[3]) == {}; }
    Chain(keyShare, states, steps);
  }

  /** Nothing keeps the consumer from committing between the counts. */
  lemma ConsumedBetweenTheCounts(limit: int)
    requires limit > 0
    ensures var counted := Alone(Invited(limit), Counted, limit - 1, true);
            Exec(false, Joined(counted, false), [InsertUser(2), CommitConsume(2)])
            == Some(counted.(used := limit, reserved := 0))
  {
    var counted := Alone(Invited(limit), Counted, limit - 1, true);
    var steps := [InsertUser(2), CommitConsume(2)];
    var states := [Joined(counted, false), Joined(counted, true), counted.(used := limit, reserved := 0)];
    assert Leads(false, states[0], steps[0], states[1]);
    assert Leads(false, states[1], steps[1], states[2]) by {
      assert states[1].txs - {2} == counted.txs;
      assert states[1].sharers - {2} == {};
    }
    Chain(false, states, steps);
  }

  /** The creator then finds no invitation left to count. */
  lemma CountedOnNeitherSide(limit: int)
    requires limit > 0
    ensures var s := Alone(Invited(limit), Counted, limit - 1, true).(used := limit, reserved := 0);
            Exec(false, s, [CountReserved(1), Commit(1)]) == Some(Invited(limit).(used := limit))
  {
    var steps := [CountReserved(1), Commit(1)];
    var states := [Alone(Invited(limit), Counted, limit - 1, true).(used := limit, reserved := 0),
                   Alone(Invited(limit).(used := limit, reserved := 0), Cleared, limit - 1, true),
                   Invited(limit).(used := limit)];
    assert Leads(false, states[0], steps[0], states[1]);
    assert Leads(false, states[1], steps[1], states[2]) by {
      assert states[1].txs - {1} == map[];
      assert states[1].sharers - {1} == {};
    }
    Chain(false, states, steps);
  }

  const UNLOCKED :=
    [Begin(1, true), Lock(1), Step.CountRows(1), BeginConsume(2)] + [InsertUser(2), CommitConsume(2)]
    + [CountReserved(1), Commit(1)]

  lemma UnlockedRun(limit: int)
    requires limit > 0
    ensures Exec(false, Invited(limit), UNLOCKED) == Some(Invited(limit).(used := limit))
  {
    var a := [Begin(1, true), Lock(1), Step.CountRows(1), BeginConsume(2)];
    var b := [InsertUser(2), CommitConsume(2)];
    UntilTheConsumer(false, limit);
    ConsumedBetweenTheCounts(limit);
    CountedOnNeitherSide(limit);
    ExecConcat(false, Invited(limit), a, b);
    ExecConcat(false, Invited(limit), a + b, [CountReserved(1), Commit(1)]);
  }

  /** The two counts of users are two reads: if a new user did not lock the tenant
      row, an invitation consumed between them would be counted on neither side. */
  lemma WithoutTheForeignKeyLock(limit: int)
    requires limit > 0
    ensures AtRest(Invited(limit))
    ensures exists steps :: Exec(false, Invited(limit), steps).Some?
              && var s := Exec(false, Invited(limit), steps).value; s.used + s.reserved == limit + 1
    ensures !Enabled(true, Joined(Alone(Invited(limit), Counted, limit - 1, true), false), InsertUser(2))
  {
    UnlockedRun(limit);
    assert Invited(limit).(used := limit).used + Invited(limit).(used := limit).reserved == limit + 1;
  }

  // --------------------------------------- the rows behind the numbers of a run

  /** The tables of a resource: its rows, and the business's invitations. */
  datatype Records = Records(rows: seq<Row>, invitations: seq<Invitation>)

  function Used(resource: Resource, tenant: int, rows: seq<Row>): nat { |Occupying(resource, tenant, rows, |rows|)| }

  function Reserved(tenant: int, invitations: seq<Invitation>): nat {
    |Reserving(tenant, invitations, |invitations|)|
  }

  /** Rows that are switched off. */
  function OffAt(rows: seq<Row>): set<nat> { set i: nat | i < |rows| && !rows[i].active }

  function Off(rows: seq<Row>): nat { |OffAt(rows)| }

  predicate Suits(resource: Resource, txn: Txn) {
    match txn
    case Creator(_, _, _, _, _, invites) => invites ==> resource == Users
    case Consumer(_) => resource == Users
    case Switcher => resource == PaymentMethods
  }

  /** Only users are invited, and only payment methods are switched. */
  predicate Fits(resource: Resource, step: Step) {
    match step
    case Begin(_, invites) => invites ==> resource == Users
    case BeginConsume(_) => resource == Users
    case Cancel => resource == Users
    case BeginOff(_) => resource == PaymentMethods
    case SwitchOn => resource == PaymentMethods
    case _ => true
  }

  /** The numbers of a state are those of the records. */
  predicate Counts(resource: Resource, tenant: int, r: Records, s: State) {
    && s.used == Used(resource, tenant, r.rows)
    && s.reserved == (if resource == Users then Reserved(tenant, r.invitations) else 0)
    && s.off == (if resource == PaymentMethods then Off(r.rows) else 0)
    && |Consumers(s)| <= s.reserved
    && forall t | t in s.txs :: Suits(resource, s.txs[t])
  }

  function Answered(invitations: seq<Invitation>, i: nat): seq<Invitation>
    requires i < |invitations|
  {
    invitations[i := invitations[i].(pending := false)]
  }

  function Without(rows: seq<Row>, i: nat): seq<Row>
    requires i < |rows|
  {
    rows[..i] + rows[i + 1..]
  }

  function Switched(rows: seq<Row>, i: nat, on: bool): seq<Row>
    requires i < |rows|
  {
    rows[i := rows[i].(active := on)]
  }

  /** What a step writes, of row or invitation `i` where there is a choice: a creation
      adds a row or an invitation, an invitation that is consumed becomes a row, others
      are cancelled, rows are deleted or switched, and the rest writes nothing. */
  predicate Writes(resource: Resource, tenant: int, r: Records, s: State, step: Step, i: nat, r': Records) {
    match step
    case Commit(tx) =>
      && tx in s.txs && s.txs[tx].Creator?
      && r' == if s.txs[tx].invites then r.(invitations := r.invitations + [Invitation(tenant, true)])
               else r.(rows := r.rows + [Row(tenant, true)])
    case CommitConsume(_) =>
      && i < |r.invitations| && Reserves(tenant, r.invitations[i])
      && r' == Records(r.rows + [Row(tenant, true)], Answered(r.invitations, i))
    case Cancel =>
      && i < |r.invitations| && Reserves(tenant, r.invitations[i])
      && r' == r.(invitations := Answered(r.invitations, i))
    case Delete =>
      && i < |r.rows| && Occupies(resource, tenant, r.rows[i])
      && r' == r.(rows := Without(r.rows, i))
    case CommitOff(_) =>
      && i < |r.rows| && Occupies(resource, tenant, r.rows[i]) && r' == r.(rows := Switched(r.rows, i, false))
    case SwitchOn => i < |r.rows| && !r.rows[i].active && r' == r.(rows := Switched(r.rows, i, true))
    case _ => r' == r
  }

  lemma AddedRow(resource: Resource, tenant: int, rows: seq<Row>)
    ensures Used(resource, tenant, rows + [Row(tenant, true)]) == Used(resource, tenant, rows) + 1
    ensures Off(rows + [Row(tenant, true)]) == Off(rows)
  {
    var more := rows + [Row(tenant, true)];
    assert Occupying(resource, tenant, more, |more|) == Occupying(resource, tenant, rows, |rows|) + {|rows|};
    assert OffAt(more) == OffAt(rows);
  }

  lemma AddedInvitation(tenant: int, invitations: seq<Invitation>)
    ensures Reserved(tenant, invitations + [Invitation(tenant, true)]) == Reserved(tenant, invitations) + 1
  {
    var more := invitations + [Invitation(tenant, true)];
    assert Reserving(tenant, more, |more|) == Reserving(tenant, invitations, |invitations|) + {|invitations|};
  }

  lemma AnsweredInvitation(tenant: int, invitations: seq<Invitation>, i: nat)
    requires i < |invitations| && Reserves(tenant, invitations[i])
    ensures Reserved(tenant, Answered(invitations, i)) == Reserved(tenant, invitations) - 1
  {
    var less := Answered(invitations, i);
    assert Reserving(tenant, less, |less|) == Reserving(tenant, invitations, |invitations|) - {i};
  }

  lemma SwitchedUsed(tenant: int, rows: seq<Row>, i: nat, on: bool)
    requires i < |rows| && rows[i].active != on
    ensures Used(PaymentMethods, tenant, Switched(rows, i, on))
            == Used(PaymentMethods, tenant, rows) + if on then 1 else -1
  {
    var now := Switched(rows, i, on);
    var used, used' := Occupying(PaymentMethods, tenant, rows, |rows|), Occupying(PaymentMethods, tenant, now, |now|);
    if on { assert used' == used + {i}; } else { assert used' == used - {i}; }
  }

  lemma SwitchedOff(rows: seq<Row>, i: nat, on: bool)
    requires i < |rows| && rows[i].active != on
    ensures Off(Switched(rows, i, on)) == Off(rows) + if on then -1 else 1
  {
    var now := Switched(rows, i, on);
    forall k: nat ensures k in OffAt(now) <==> if k == i then !on else k in OffAt(rows) {}
    assert OffAt(now) == if on then OffAt(rows) - {i} else OffAt(rows) + {i};
  }

  function Shift(k: nat, i: nat): nat
    requires k != i
  {
    if k < i then k else k - 1
  }

  function Shifted(s: set<nat>, i: nat): set<nat>
    requires i !in s
  {
    set k | k in s :: Shift(k, i)
  }

  /** Moving the positions behind a deleted row down by one loses nothing. */
  lemma {:induction false} ShiftedSize(s: set<nat>, i: nat)
    requires i !in s
    ensures |Shifted(s, i)| == |s|
    decreases |s|
  {
    if s != {} {
      var x :| x in s;
      var rest := Shifted(s - {x}, i);
      ShiftedSize(s - {x}, i);
      assert Shift(x, i) !in rest;
      assert Shifted(s, i) == rest + {Shift(x, i)};
    }
  }

  lemma DeletedUsed(resource: Resource, tenant: int, rows: seq<Row>, i: nat)
    requires i < |rows| && Occupies(resource, tenant, rows[i])
    ensures Used(resource, tenant, Without(rows, i)) == Used(resource, tenant, rows) - 1
  {
    var less := Without(rows, i);
    var kept := Occupying(resource, tenant, rows, |rows|) - {i};
    ShiftedSize(kept, i);
    var moved := Shifted(kept, i);
    forall k: nat ensures k in moved <==> k in Occupying(resource, tenant, less, |less|) {
      if k in Occupying(resource, tenant, less, |less|) {
        var from := if k < i then k else k + 1;
        assert less[k] == rows[from] && from in kept && Shift(from, i) == k;
      }
    }
    assert moved == Occupying(resource, tenant, less, |less|);
  }

  lemma DeletedOff(rows: seq<Row>, i: nat)
    requires i < |rows| && rows[i].active
    ensures Off(Without(rows, i)) == Off(rows)
  {
    var less := Without(rows, i);
    var kept := OffAt(rows);
    ShiftedSize(kept, i);
    var moved := Shifted(kept, i);
    var off := OffAt(less);
    forall k: nat ensures k in moved <==> k in off {
      if k in off {
        var from := if k < i then k else k + 1;
        assert less[k] == rows[from] && from in kept && Shift(from, i) == k;
      }
    }
    assert moved == off;
  }

  lemma ConsumersAfter(s: State, step: Step)
    requires Enabled(true, s, step)
    ensures var s' := Next(true, s, step);
            && (step.BeginConsume? ==> |Consumers(s')| == |Consumers(s)| + 1)
            && (step.CommitConsume? ==> |Consumers(s')| == |Consumers(s)| - 1)
            && (!step.BeginConsume? && !step.CommitConsume? ==> |Consumers(s')| <= |Consumers(s)|)
  {
    var s' := Next(true, s, step);
    if step.BeginConsume? {
      assert Consumers(s') == Consumers(s) + {step.tx};
    } else if step.CommitConsume? {
      assert Consumers(s') == Consumers(s) - {step.tx};
    } else {
      assert Consumers(s') <= Consumers(s);
      SubsetSize(Consumers(s'), Consumers(s));
    }
  }

  lemma SubsetSize<T>(a: set<T>, b: set<T>)
    requires a <= b
    ensures |a| <= |b|
  {
    assert b == a + (b - a);
  }

  lemma SuitsAfter(resource: Resource, s: State, step: Step)
    requires Enabled(true, s, step) && Fits(resource, step) && forall t | t in s.txs :: Suits(resource, s.txs[t])
    ensures forall t | t in Next(true, s, step).txs :: Suits(resource, Next(true, s, step).txs[t])
  {
  }

  /** Each step changes the numbers of a run as it changes the records. */
  lemma StepCounts(resource: Resource, tenant: int, r: Records, s: State, step: Step, i: nat, r': Records)
    requires Counts(resource, tenant, r, s) && Enabled(true, s, step) && Fits(resource, step)
    requires Writes(resource, tenant, r, s, step, i, r')
    ensures Counts(resource, tenant, r', Next(true, s, step))
  {
    ConsumersAfter(s, step);
    SuitsAfter(resource, s, step);
    match step
    case Commit(tx) =>
      assert Suits(resource, s.txs[tx]);
      AddedRow(resource, tenant, r.rows);
      AddedInvitation(tenant, r.invitations);
    case CommitConsume(tx) =>
      assert Suits(resource, s.txs[tx]);
      AddedRow(resource, tenant, r.rows);
      AnsweredInvitation(tenant, r.invitations, i);
    case Cancel => AnsweredInvitation(tenant, r.invitations, i);
    case Delete =>
      DeletedUsed(resource, tenant, r.rows, i);
      if resource == PaymentMethods { DeletedOff(r.rows, i); }
    case CommitOff(tx) =>
      assert Suits(resource, s.txs[tx]);
      SwitchedUsed(tenant, r.rows, i, false);
      SwitchedOff(r.rows, i, false);
    case SwitchOn =>
      SwitchedUsed(tenant, r.rows, i, true);
      SwitchedOff(r.rows, i, true);
    case _ =>
  }

  lemma PickNat(s: set<nat>) returns (x: nat)
    requires |s| > 0
    ensures x in s
  {
    x :| x in s;
  }

  /** There always is something to write, of an enabled step. */
  lemma CanWrite(resource: Resource, tenant: int, r: Records, s: State, step: Step) returns (i: nat, r': Records)
    requires Counts(resource, tenant, r, s) && Enabled(true, s, step) && Fits(resource, step)
    ensures Writes(resource, tenant, r, s, step, i, r')
  {
    i, r' := 0, r;
    match step
    case Commit(tx) =>
      r' := if s.txs[tx].invites then r.(invitations := r.invitations + [Invitation(tenant, true)])
            else r.(rows := r.rows + [Row(tenant, true)]);
    case CommitConsume(tx) =>
      assert tx in Consumers(s) && Suits(resource, s.txs[tx]);
      i := PickNat(Reserving(tenant, r.invitations, |r.invitations|));
      r' := Records(r.rows + [Row(tenant, true)], Answered(r.invitations, i));
    case Cancel =>
      i := PickNat(Reserving(tenant, r.invitations, |r.invitations|));
      r' := r.(invitations := Answered(r.invitations, i));
    case Delete =>
      i := PickNat(Occupying(resource, tenant, r.rows, |r.rows|));
      r' := r.(rows := Without(r.rows, i));
    case CommitOff(_) =>
      i := PickNat(Occupying(resource, tenant, r.rows, |r.rows|));
      r' := r.(rows := Switched(r.rows, i, false));
    case SwitchOn =>
      i := PickNat(set k: nat | k < |r.rows| && !r.rows[k].active);
      r' := r.(rows := Switched(r.rows, i, true));
    case _ =>
  }

  /** A run that writes records: `recs` are they before and after each step. */
  ghost predicate Recorded(resource: Resource, tenant: int, s: State, steps: seq<Step>, recs: seq<Records>)
    decreases |steps|
  {
    && |recs| == |steps| + 1
    && (steps != [] ==>
          && Enabled(true, s, steps[0]) && Fits(resource, steps[0])
          && (exists i :: Writes(resource, tenant, recs[0], s, steps[0], i, recs[1]))
          && Recorded(resource, tenant, Next(true, s, steps[0]), steps[1..], recs[1..]))
  }

  lemma {:induction false} RecordedCounts(resource: Resource, tenant: int, s: State, steps: seq<Step>,
                                          recs: seq<Records>)
    requires Recorded(resource, tenant, s, steps, recs) && Counts(resource, tenant, recs[0], s)
    ensures Exec(true, s, steps).Some? && Counts(resource, tenant, recs[|steps|], Exec(true, s, steps).value)
    decreases |steps|
  {
    if steps != [] {
      var i :| Writes(resource, tenant, recs[0], s, steps[0], i, recs[1]);
      StepCounts(resource, tenant, recs[0], s, steps[0], i, recs[1]);
      RecordedCounts(resource, tenant, Next(true, s, steps[0]), steps[1..], recs[1..]);
    }
  }

  /** Every run writes some records. */
  lemma {:induction false} RunIsRecorded(resource: Resource, tenant: int, s: State, steps: seq<Step>, r: Records)
    returns (recs: seq<Records>)
    requires Counts(resource, tenant, r, s) && Exec(true, s, steps).Some?
    requires forall k | 0 <= k < |steps| :: Fits(resource, steps[k])
    ensures Recorded(resource, tenant, s, steps, recs) && recs[0] == r
    decreases |steps|
  {
    if steps == [] {
      recs := [r];
    } else {
      var i, r' := CanWrite(resource, tenant, r, s, steps[0]);
      StepCounts(resource, tenant, r, s, steps[0], i, r');
      var rest := RunIsRecorded(resource, tenant, Next(true, s, steps[0]), steps[1..], r');
      recs := [r] + rest;
      assert recs[1..] == rest && recs[1] == r';
      assert Writes(resource, tenant, recs[0], s, steps[0], i, recs[1]);
    }
  }

  /** So the quota holds of what is counted in the tables, at the end of every run that
      starts from records within the limit. */
  lemma QuotaOfRecords(resource: Resource, tenant: int, start: State, steps: seq<Step>, recs: seq<Records>)
    requires AtRest(start) && Recorded(resource, tenant, start, steps, recs) && Counts(resource, tenant, recs[0], start)
    ensures Exec(true, start, steps).Some?
    ensures var s, r := Exec(true, start, steps).value, recs[|steps|];
            && Usage(resource, tenant, r.rows, r.invitations) == s.used + s.reserved
            && (s.limit.Some? ==> Usage(resource, tenant, r.rows, r.invitations) <= s.limit.value + s.revived)
  {
    RecordedCounts(resource, tenant, start, steps, recs);
    QuotaHolds(start, steps);
  }
}
