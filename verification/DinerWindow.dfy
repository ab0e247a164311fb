/**
 Diners at a table: the sliding window of their session and the sweep that reads
 their last activity back from it. Times are whole seconds; table rows are
 listed in order of insertion and named by their position.
 */
module DinerWindow {
  import opened Options

  /** Sliding window, refresh slack, inactivity limit of a table without orders,
      absolute limit of a table session. */
  datatype Config = Config(ttl: int, slack: int, emptyTtl: int, absMax: int)

  datatype Diner = Diner(session: nat, open: bool, expires: Option<int>, closedAt: Option<int>, cartOpen: bool)

  /** `billable` is what `has_billable_orders` answers for the session. */
  datatype Session = Session(table: nat, active: bool, openedAt: int, billable: bool)

  /** What happened to a diner, which no table keeps: the last accepted request
      that counts as activity, and each moment its window was written. */
  datatype History = History(touched: Option<int>, writes: seq<int>)

  datatype State = State(clock: int, diners: seq<Diner>, sessions: seq<Session>, seen: seq<History>)

  // ------------------------------------------------------------------ decisions

  /** `_should_refresh` */
  predicate ShouldRefresh(cfg: Config, d: Diner, now: int) {
    d.expires.None? || d.expires.value - now <= cfg.ttl - cfg.slack
  }

  /** The diner's activity, as the sweep derives it, is after the limit. */
  predicate KeepsTable(cfg: Config, d: Diner, now: int) {
    d.open && d.expires.Some? && d.expires.value - cfg.ttl > now - cfg.emptyTtl
  }

  /** `_abandonadas_sin_pedir` selects the session. */
  predicate Abandoned(cfg: Config, s: State, sid: nat)
    requires sid < |s.sessions|
  {
    && s.sessions[sid].active
    && !(exists p | 0 <= p < |s.diners| :: s.diners[p].session == sid && KeepsTable(cfg, s.diners[p], s.clock))
    && !s.sessions[sid].billable
  }

  // -------------------------------------------------------------------- changes

  /** `close_participant` */
  function CloseDiner(d: Diner, now: int): Diner {
    d.(open := false, closedAt := if d.closedAt.None? then Some(now) else d.closedAt, cartOpen := false)
  }

  predicate SitsAt(d: Diner, sessions: seq<Session>, table: nat) {
    d.open && d.session < |sessions| && sessions[d.session].active && sessions[d.session].table == table
  }

  /** `close_table_sessions`: the active sessions of a table and their diners. */
  function CloseTable(s: State, table: nat): State {
    s.(diners := seq(|s.diners|, p requires 0 <= p < |s.diners| =>
                   if SitsAt(s.diners[p], s.sessions, table) then CloseDiner(s.diners[p], s.clock) else s.diners[p]),
       sessions := seq(|s.sessions|, i requires 0 <= i < |s.sessions| =>
                     if s.sessions[i].table == table then s.sessions[i].(active := false) else s.sessions[i]))
  }

  /** `try_release_if_empty` */
  function ReleaseIfEmpty(s: State, sid: nat): State {
    if sid >= |s.sessions| || !s.sessions[sid].active then s
    else if exists p | 0 <= p < |s.diners| :: s.diners[p].session == sid && s.diners[p].open then s
    else if s.sessions[sid].billable then s
    else CloseTable(s, s.sessions[sid].table)
  }

  /** A closed diner and, after the last one, its table. */
  function Abandon(s: State, pid: nat): State
    requires pid < |s.diners|
  {
    ReleaseIfEmpty(s.(diners := s.diners[pid := CloseDiner(s.diners[pid], s.clock)]), s.diners[pid].session)
  }

  datatype Answer = Closed | Expired | TooLong | Welcome

  /** The checks of `open_session_context`, in order, for a token of diner pid and
      session sid whose signature holds. */
  function Check(cfg: Config, s: State, pid: nat, sid: nat): Answer {
    if pid >= |s.diners| || !s.diners[pid].open then Closed
    else if sid >= |s.sessions| || !s.sessions[sid].active || s.diners[pid].session != sid then Closed
    else if s.diners[pid].expires.Some? && s.diners[pid].expires.value <= s.clock then Expired
    else if s.sessions[sid].openedAt + cfg.absMax <= s.clock then TooLong
    else Welcome
  }

  function Refresh(cfg: Config, s: State, pid: nat): State
    requires pid < |s.diners|
  {
    s.(diners := s.diners[pid := s.diners[pid].(expires := Some(s.clock + cfg.ttl))])
  }

  /** Activity is remembered, together with the write if there was one. */
  function Remember(s: State, pid: nat, wrote: bool): State
    requires pid < |s.seen|
  {
    var writes := s.seen[pid].writes;
    s.(seen := s.seen[pid := History(Some(s.clock), if wrote then writes + [s.clock] else writes)])
  }

  function Request(cfg: Config, s: State, pid: nat, sid: nat, touch: bool): State
    requires |s.seen| == |s.diners|
  {
    match Check(cfg, s, pid, sid)
    case Closed => s
    case Expired => Abandon(s, pid)
    case TooLong => s
    case Welcome =>
      if !touch then s
      else if ShouldRefresh(cfg, s.diners[pid], s.clock) then Remember(Refresh(cfg, s, pid), pid, true)
      else Remember(s, pid, false)
  }

  function ActiveAt(sessions: seq<Session>, table: nat): Option<nat> {
    if sessions == [] then None
    else
      var n := |sessions| - 1;
      var earlier := ActiveAt(sessions[..n], table);
      if earlier.Some? then earlier
      else if sessions[n].active && sessions[n].table == table then Some(n)
      else None
  }

  /** `open_session`: the diner joins the table's active session or opens one. */
  function Join(cfg: Config, s: State, table: nat): State {
    var at := ActiveAt(s.sessions, table);
    var sid := if at.Some? then at.value else |s.sessions|;
    s.(sessions := if at.Some? then s.sessions else s.sessions + [Session(table, true, s.clock, false)],
       diners := s.diners + [Diner(sid, true, Some(s.clock + cfg.ttl), None, true)],
       seen := s.seen + [History(Some(s.clock), [s.clock])])
  }

  /** The insert of a scan that had found no active session: the partial unique index
      turns it away if there is one by now. */
  function JoinLate(cfg: Config, s: State, table: nat): State {
    if exists i | 0 <= i < |s.sessions| :: s.sessions[i].active && s.sessions[i].table == table then s
    else Join(cfg, s, table)
  }

  /** `add_participant` from the point of sale: no window and no cart. */
  function AddByStaff(s: State, sid: nat): State
    requires sid < |s.sessions|
  {
    if !s.sessions[sid].active then s
    else s.(diners := s.diners + [Diner(sid, true, None, None, false)], seen := s.seen + [History(None, [])])
  }

  /** The selected sessions are closed with their tables. */
  function CloseAll(s: State, picked: seq<nat>): (r: State)
    requires forall k | 0 <= k < |picked| :: picked[k] < |s.sessions|
    ensures |r.diners| == |s.diners| && r.seen == s.seen && r.clock == s.clock && |r.sessions| == |s.sessions|
    decreases |picked|
  {
    if picked == [] then s else CloseAll(CloseTable(s, s.sessions[picked[0]].table), picked[1..])
  }

  function Selected(cfg: Config, s: State, n: nat): (picked: seq<nat>)
    requires n <= |s.sessions|
    ensures forall k | 0 <= k < |picked| :: picked[k] < n
  {
    if n == 0 then []
    else Selected(cfg, s, n - 1) + (if Abandoned(cfg, s, n - 1) then [n - 1] else [])
  }

  lemma {:induction false} SelectedExactly(cfg: Config, s: State, n: nat)
    requires n <= |s.sessions|
    ensures forall sid: nat :: sid in Selected(cfg, s, n) <==> sid < n && Abandoned(cfg, s, sid)
  {
    if n > 0 { SelectedExactly(cfg, s, n - 1); }
  }

  // ---------------------------------------------------------------------- steps

  datatype Step =
    | Tick(to: int)
    | Joins(table: nat)
    | JoinsLate(table: nat)
    | StaffAdds(sid: nat)
    | Requests(pid: nat, sid: nat, touch: bool)
    | Leaves(pid: nat)
    | Orders(sid: nat, billable: bool)
    | Closes(table: nat)
    | Sweeps

  predicate Enabled(s: State, step: Step) {
    match step
    case Tick(to) => s.clock <= to
    case StaffAdds(sid) => sid < |s.sessions|
    case Leaves(pid) => pid < |s.diners|
    case Orders(sid, _) => sid < |s.sessions|
    case _ => true
  }

  function Next(cfg: Config, s: State, step: Step): (r: State)
    requires Enabled(s, step) && |s.seen| == |s.diners|
    ensures |r.seen| == |r.diners|
  {
    match step
    case Tick(to) => s.(clock := to)
    case Joins(table) => Join(cfg, s, table)
    case JoinsLate(table) => JoinLate(cfg, s, table)
    case StaffAdds(sid) => AddByStaff(s, sid)
    case Requests(pid, sid, touch) => Request(cfg, s, pid, sid, touch)
    case Leaves(pid) => Abandon(s, pid)
    case Orders(sid, billable) => s.(sessions := s.sessions[sid := s.sessions[sid].(billable := billable)])
    case Closes(table) => CloseTable(s, table)
    case Sweeps => CloseAll(s, Selected(cfg, s, |s.sessions|))
  }

  // ------------------------------------------------------------------ invariant

  predicate Spaced(writes: seq<int>, slack: int) {
    forall i | 0 <= i < |writes| - 1 :: writes[i + 1] - writes[i] >= slack
  }

  /** The window tells the last activity with an error below the slack. */
  predicate Agrees(cfg: Config, expires: Option<int>, h: History, clock: int) {
    && (expires.None? ==> h == History(None, []))
    && (expires.Some? ==>
          && h.writes != [] && h.touched.Some?
          && expires.value == h.writes[|h.writes| - 1] + cfg.ttl
          && h.writes[|h.writes| - 1] <= h.touched.value <= clock
          && h.touched.value - h.writes[|h.writes| - 1] < cfg.slack)
    && Spaced(h.writes, cfg.slack)
  }

  /** Open diners sit in an active session; closed ones have no open cart. */
  predicate Seated(s: State, p: nat)
    requires p < |s.diners|
  {
    var d := s.diners[p];
    && d.session < |s.sessions|
    && (d.open ==> s.sessions[d.session].active)
    && (!d.open ==> d.closedAt.Some? && !d.cartOpen)
  }

  predicate Inv(cfg: Config, s: State) {
    && |s.seen| == |s.diners|
    && (forall p | 0 <= p < |s.diners| :: Agrees(cfg, s.diners[p].expires, s.seen[p], s.clock))
    && (forall p | 0 <= p < |s.diners| :: Seated(s, p))
  }

  lemma CloseTableKeeps(cfg: Config, s: State, table: nat)
    requires Inv(cfg, s)
    ensures Inv(cfg, CloseTable(s, table))
  {
    var s' := CloseTable(s, table);
    forall p | 0 <= p < |s.diners| ensures Seated(s', p) && Agrees(cfg, s'.diners[p].expires, s'.seen[p], s'.clock) {
      assert Seated(s, p) && Agrees(cfg, s.diners[p].expires, s.seen[p], s.clock);
    }
  }

  lemma {:induction false} CloseAllKeeps(cfg: Config, s: State, picked: seq<nat>)
    requires Inv(cfg, s) && forall k | 0 <= k < |picked| :: picked[k] < |s.sessions|
    ensures Inv(cfg, CloseAll(s, picked))
    decreases |picked|
  {
    if picked != [] {
      CloseTableKeeps(cfg, s, s.sessions[picked[0]].table);
      CloseAllKeeps(cfg, CloseTable(s, s.sessions[picked[0]].table), picked[1..]);
    }
  }

  lemma AbandonKeeps(cfg: Config, s: State, pid: nat)
    requires Inv(cfg, s) && pid < |s.diners|
    ensures Inv(cfg, Abandon(s, pid))
  {
    var s1 := s.(diners := s.diners[pid := CloseDiner(s.diners[pid], s.clock)]);
    forall p | 0 <= p < |s.diners| ensures Seated(s1, p) && Agrees(cfg, s1.diners[p].expires, s1.seen[p], s1.clock) {
      assert Seated(s, p) && Agrees(cfg, s.diners[p].expires, s.seen[p], s.clock);
    }
    var sid := s.diners[pid].session;
    if sid < |s.sessions| { CloseTableKeeps(cfg, s1, s1.sessions[sid].table); }
  }

  lemma RequestKeeps(cfg: Config, s: State, pid: nat, sid: nat, touch: bool)
    requires cfg.slack > 0 && Inv(cfg, s)
    ensures Inv(cfg, Request(cfg, s, pid, sid, touch))
  {
    if Check(cfg, s, pid, sid) == Expired { AbandonKeeps(cfg, s, pid); }
    if Check(cfg, s, pid, sid) == Welcome && touch {
      var s' := Request(cfg, s, pid, sid, touch);
      forall p | 0 <= p < |s.diners| ensures Seated(s', p) && Agrees(cfg, s'.diners[p].expires, s'.seen[p], s'.clock) {
        assert Seated(s, p) && Agrees(cfg, s.diners[p].expires, s.seen[p], s.clock);
      }
    }
  }

  lemma {:induction false} ActiveAtMeans(sessions: seq<Session>, table: nat)
    ensures var at := ActiveAt(sessions, table);
            at.Some? ==> at.value < |sessions| && sessions[at.value].active && sessions[at.value].table == table
  {
    if sessions != [] { ActiveAtMeans(sessions[..|sessions| - 1], table); }
  }

  lemma SimpleStepKeeps(cfg: Config, s: State, step: Step)
    requires cfg.slack > 0 && Inv(cfg, s) && Enabled(s, step)
    requires step.Tick? || step.Joins? || step.JoinsLate? || step.StaffAdds? || step.Orders?
    ensures Inv(cfg, Next(cfg, s, step))
  {
    var s' := Next(cfg, s, step);
    if step.Joins? || step.JoinsLate? { ActiveAtMeans(s.sessions, step.table); }
    forall p | 0 <= p < |s'.diners| ensures Seated(s', p) && Agrees(cfg, s'.diners[p].expires, s'.seen[p], s'.clock) {
      if p < |s.diners| { assert Seated(s, p) && Agrees(cfg, s.diners[p].expires, s.seen[p], s.clock); }
    }
  }

  lemma StepKeeps(cfg: Config, s: State, step: Step)
    requires cfg.slack > 0 && Inv(cfg, s) && Enabled(s, step)
    ensures Inv(cfg, Next(cfg, s, step))
  {
    match step
    case Requests(pid, sid, touch) => RequestKeeps(cfg, s, pid, sid, touch);
    case Sweeps => CloseAllKeeps(cfg, s, Selected(cfg, s, |s.sessions|));
    case Leaves(pid) => AbandonKeeps(cfg, s, pid);
    case Closes(table) => CloseTableKeeps(cfg, s, table);
    case _ => SimpleStepKeeps(cfg, s, step);
  }

  function Exec(cfg: Config, s: State, steps: seq<Step>): (r: Option<State>)
    requires |s.seen| == |s.diners|
    ensures r.Some? ==> |r.value.seen| == |r.value.diners|
    decreases |steps|
  {
    if steps == [] then Some(s)
    else if Enabled(s, steps[0]) then Exec(cfg, Next(cfg, s, steps[0]), steps[1..])
    else None
  }

  const EMPTY := State(0, [], [], [])

  lemma {:induction false} RunKeeps(cfg: Config, s: State, steps: seq<Step>)
    requires cfg.slack > 0 && Inv(cfg, s) && Exec(cfg, s, steps).Some?
    ensures Inv(cfg, Exec(cfg, s, steps).value)
    decreases |steps|
  {
    if steps != [] {
      StepKeeps(cfg, s, steps[0]);
      RunKeeps(cfg, Next(cfg, s, steps[0]), steps[1..]);
    }
  }

  // ------------------------------------------------- the sweep and the window

  predicate Reached(cfg: Config, steps: seq<Step>, s: State) { Exec(cfg, EMPTY, steps) == Some(s) }

  /** Who touched the session no longer than the limit less the slack ago keeps it. */
  lemma SweepSparesActivity(cfg: Config, steps: seq<Step>, s: State, pid: nat)
    requires cfg.slack > 0 && Reached(cfg, steps, s)
    requires pid < |s.diners| && s.diners[pid].open && s.seen[pid].touched.Some?
    requires s.clock - s.seen[pid].touched.value <= cfg.emptyTtl - cfg.slack
    ensures s.diners[pid].session < |s.sessions| && !Abandoned(cfg, s, s.diners[pid].session)
    ensures s.diners[pid].session !in Selected(cfg, s, |s.sessions|)
  {
    RunKeeps(cfg, EMPTY, steps);
    assert Agrees(cfg, s.diners[pid].expires, s.seen[pid], s.clock);
    assert Seated(s, pid) && KeepsTable(cfg, s.diners[pid], s.clock);
    SelectedExactly(cfg, s, |s.sessions|);
  }

  /** A session without orders whose diners have all been idle for the limit is taken. */
  lemma SweepTakesIdle(cfg: Config, steps: seq<Step>, s: State, sid: nat)
    requires cfg.slack > 0 && Reached(cfg, steps, s)
    requires sid < |s.sessions| && s.sessions[sid].active && !s.sessions[sid].billable
    requires forall p | 0 <= p < |s.diners| && s.diners[p].session == sid && s.diners[p].open
               && s.seen[p].touched.Some? ::
               s.seen[p].touched.value <= s.clock - cfg.emptyTtl
    ensures Abandoned(cfg, s, sid) && sid in Selected(cfg, s, |s.sessions|)
    ensures var swept := Next(cfg, s, Sweeps);
            && !swept.sessions[sid].active
            && forall p | 0 <= p < |swept.diners| && swept.diners[p].session == sid :: !swept.diners[p].open
  {
    RunKeeps(cfg, EMPTY, steps);
    forall p | 0 <= p < |s.diners| && s.diners[p].session == sid ensures !KeepsTable(cfg, s.diners[p], s.clock) {
      assert Agrees(cfg, s.diners[p].expires, s.seen[p], s.clock);
    }
    SelectedExactly(cfg, s, |s.sessions|);
    var picked := Selected(cfg, s, |s.sessions|);
    CloseAllCloses(s, picked, sid);
    StepKeeps(cfg, s, Sweeps);
    var swept := Next(cfg, s, Sweeps);
    forall p | 0 <= p < |swept.diners| && swept.diners[p].session == sid ensures !swept.diners[p].open {
      assert Seated(swept, p);
    }
  }

  lemma {:induction false} CloseAllCloses(s: State, picked: seq<nat>, sid: nat)
    requires sid < |s.sessions| && forall k | 0 <= k < |picked| :: picked[k] < |s.sessions|
    ensures sid in picked || !s.sessions[sid].active ==> !CloseAll(s, picked).sessions[sid].active
    decreases |picked|
  {
    if picked != [] { CloseAllCloses(CloseTable(s, s.sessions[picked[0]].table), picked[1..], sid); }
  }

  /** With a touching request this very moment a diner keeps the table in every
      run exactly when the slack does not exceed the inactivity limit. */
  ghost predicate SparesTouchingDiners(cfg: Config) {
    forall steps, s, pid: nat ::
      Reached(cfg, steps, s) && TouchesNow(s, pid) ==> s.diners[pid].session !in Selected(cfg, s, |s.sessions|)
  }

  predicate TouchesNow(s: State, pid: nat) {
    pid < |s.diners| && |s.seen| == |s.diners| && s.diners[pid].open && s.seen[pid].touched == Some(s.clock)
  }

  lemma SlackMustNotExceedLimit(cfg: Config)
    requires cfg.slack > 0 && 0 <= cfg.emptyTtl && cfg.emptyTtl < cfg.ttl && cfg.emptyTtl < cfg.absMax
    ensures SparesTouchingDiners(cfg) <==> cfg.slack <= cfg.emptyTtl
  {
    if cfg.slack <= cfg.emptyTtl {
      forall steps, s, pid: nat | Reached(cfg, steps, s) && TouchesNow(s, pid)
        ensures s.diners[pid].session !in Selected(cfg, s, |s.sessions|)
      {
        SweepSparesActivity(cfg, steps, s, pid);
      }
    } else {
      var s := ActiveButSwept(cfg);
      assert TouchesNow(s, 0) && s.diners[0].session in Selected(cfg, s, |s.sessions|);
    }
  }

  lemma ActiveButSwept(cfg: Config) returns (s: State)
    requires cfg.slack > 0 && 0 <= cfg.emptyTtl && cfg.emptyTtl < cfg.ttl && cfg.emptyTtl < cfg.absMax
    requires cfg.slack > cfg.emptyTtl
    ensures Reached(cfg, [Joins(0), Tick(cfg.emptyTtl), Requests(0, 0, true)], s)
    ensures TouchesNow(s, 0) && s.diners[0].session in Selected(cfg, s, |s.sessions|)
  {
    var steps := [Joins(0), Tick(cfg.emptyTtl), Requests(0, 0, true)];
    var s1 := Next(cfg, EMPTY, steps[0]);
    var s2 := Next(cfg, s1, steps[1]);
    s := Next(cfg, s2, steps[2]);
    assert s1.diners == [Diner(0, true, Some(cfg.ttl), None, true)];
    assert Check(cfg, s2, 0, 0) == Welcome;
    assert Exec(cfg, s, steps[1..][1..][1..]) == Some(s);
    assert Exec(cfg, s2, steps[1..][1..]) == Some(s);
    assert Exec(cfg, s1, steps[1..]) == Some(s);
    assert Abandoned(cfg, s, 0);
    SelectedExactly(cfg, s, 1);
  }

  /** n writes of a diner's window span at least n - 1 times the slack. */
  lemma WritesAreSpaced(cfg: Config, steps: seq<Step>, s: State, pid: nat)
    requires cfg.slack > 0 && Reached(cfg, steps, s) && pid < |s.diners|
    ensures var w := s.seen[pid].writes;
            w != [] ==> w[|w| - 1] - w[0] >= (|w| - 1) * cfg.slack
  {
    RunKeeps(cfg, EMPTY, steps);
    assert Agrees(cfg, s.diners[pid].expires, s.seen[pid], s.clock);
    if s.seen[pid].writes != [] { SpacedSpan(s.seen[pid].writes, cfg.slack); }
  }

  lemma {:induction false} SpacedSpan(w: seq<int>, slack: int)
    requires w != [] && Spaced(w, slack)
    ensures w[|w| - 1] - w[0] >= (|w| - 1) * slack
  {
    if |w| > 1 {
      var most := w[..|w| - 1];
      forall i | 0 <= i < |most| - 1 ensures most[i + 1] - most[i] >= slack {
        assert w[i + 1] - w[i] >= slack;
      }
      SpacedSpan(most, slack);
      assert w[|w| - 2 + 1] - w[|w| - 2] >= slack;
      assert (|w| - 1) * slack == (|w| - 2) * slack + slack;
    }
  }

  // ------------------------------------------------------ who is let in, and how long

  /** A connection that only listens moves nobody's window. */
  lemma ListeningNeverExtends(cfg: Config, s: State, pid: nat, sid: nat)
    requires |s.seen| == |s.diners|
    ensures var s' := Request(cfg, s, pid, sid, false);
            && s'.seen == s.seen && |s'.diners| == |s.diners|
            && forall p | 0 <= p < |s.diners| :: s'.diners[p].expires == s.diners[p].expires
  {
  }

  /** What is over stays over: a closed session, a closed diner, and the moment a
      session opened. */
  lemma StepIsFinal(cfg: Config, s: State, step: Step)
    requires |s.seen| == |s.diners| && Enabled(s, step)
    ensures var s' := Next(cfg, s, step);
            && s'.clock >= s.clock && |s'.sessions| >= |s.sessions| && |s'.diners| >= |s.diners|
            && (forall i | 0 <= i < |s.sessions| ::
                  s'.sessions[i].openedAt == s.sessions[i].openedAt && (s'.sessions[i].active ==> s.sessions[i].active))
            && (forall p | 0 <= p < |s.diners| ::
                  s'.diners[p].session == s.diners[p].session && (s'.diners[p].open ==> s.diners[p].open))
  {
    if step.Sweeps? { CloseAllIsFinal(s, Selected(cfg, s, |s.sessions|)); }
  }

  lemma {:induction false} CloseAllIsFinal(s: State, picked: seq<nat>)
    requires forall k | 0 <= k < |picked| :: picked[k] < |s.sessions|
    ensures var s' := CloseAll(s, picked);
            && (forall i | 0 <= i < |s.sessions| ::
                  s'.sessions[i].openedAt == s.sessions[i].openedAt && (s'.sessions[i].active ==> s.sessions[i].active))
            && (forall p | 0 <= p < |s.diners| ::
                  s'.diners[p].session == s.diners[p].session && (s'.diners[p].open ==> s.diners[p].open))
    decreases |picked|
  {
    if picked != [] { CloseAllIsFinal(CloseTable(s, s.sessions[picked[0]].table), picked[1..]); }
  }

  /** Once its session is closed, its diner is closed or the absolute limit has
      passed, a token is never welcome again. */
  lemma {:induction false} TokenDiesForGood(cfg: Config, s: State, steps: seq<Step>, pid: nat, sid: nat)
    requires |s.seen| == |s.diners| && Exec(cfg, s, steps).Some?
    requires pid < |s.diners| && sid < |s.sessions|
    requires !s.sessions[sid].active || !s.diners[pid].open || s.sessions[sid].openedAt + cfg.absMax <= s.clock
    ensures Check(cfg, Exec(cfg, s, steps).value, pid, sid) != Welcome
    decreases |steps|
  {
    if steps != [] {
      StepIsFinal(cfg, s, steps[0]);
      TokenDiesForGood(cfg, Next(cfg, s, steps[0]), steps[1..], pid, sid);
    }
  }

  /** The request of a diner whose last activity is a whole window ago, or more: it is
      refused, moves nobody's window and closes the diner. */
  predicate TurnedAway(s: State, s': State, answer: Answer, pid: nat, sid: nat)
    requires pid < |s.diners|
  {
    && answer != Welcome && s'.seen == s.seen && |s'.diners| == |s.diners|
    && (s.diners[pid].open && sid < |s.sessions| && s.sessions[sid].active && s.diners[pid].session == sid ==>
          answer == Expired && !s'.diners[pid].open && !s'.diners[pid].cartOpen)
  }

  lemma IdleIsTurnedAway(cfg: Config, s: State, pid: nat, sid: nat, touch: bool)
    requires Inv(cfg, s) && pid < |s.diners| && s.seen[pid].touched.Some?
    requires s.clock - s.seen[pid].touched.value >= cfg.ttl
    ensures TurnedAway(s, Request(cfg, s, pid, sid, touch), Check(cfg, s, pid, sid), pid, sid)
  {
    assert Agrees(cfg, s.diners[pid].expires, s.seen[pid], s.clock);
  }

  /** The request of a diner who is there: it is let in and, if it counts as activity,
      remembered as such; everything but this diner's window stays. */
  predicate LetIn(s: State, s': State, answer: Answer, pid: nat, touch: bool)
    requires pid < |s.diners| == |s.seen|
  {
    && answer == Welcome && s'.clock == s.clock && s'.sessions == s.sessions
    && |s'.diners| == |s.diners| == |s'.seen|
    && s'.diners == s.diners[pid := s.diners[pid].(expires := s'.diners[pid].expires)]
    && s'.seen == s.seen[pid := s'.seen[pid]]
    && s'.seen[pid].touched == if touch then Some(s.clock) else s.seen[pid].touched
  }

  lemma PresentIsLetIn(cfg: Config, s: State, pid: nat, sid: nat, touch: bool)
    requires Inv(cfg, s) && pid < |s.diners| && s.diners[pid].open && s.diners[pid].session == sid
    requires s.seen[pid].touched.Some? ==> s.clock - s.seen[pid].touched.value <= cfg.ttl - cfg.slack
    requires sid < |s.sessions| && s.clock < s.sessions[sid].openedAt + cfg.absMax
    ensures LetIn(s, Request(cfg, s, pid, sid, touch), Check(cfg, s, pid, sid), pid, touch)
  {
    assert Agrees(cfg, s.diners[pid].expires, s.seen[pid], s.clock) && Seated(s, pid);
  }

  /** So it is in every run: a diner idle for a window is turned away, and one whose
      last activity is no longer ago than the window less the slack is let in, until
      the absolute limit. */
  lemma WindowDecides(cfg: Config, steps: seq<Step>, s: State, pid: nat, sid: nat, touch: bool)
    requires cfg.slack > 0 && Reached(cfg, steps, s) && pid < |s.diners|
    ensures |s.seen| == |s.diners|
    ensures s.seen[pid].touched.Some? && s.clock - s.seen[pid].touched.value >= cfg.ttl ==>
              TurnedAway(s, Request(cfg, s, pid, sid, touch), Check(cfg, s, pid, sid), pid, sid)
    ensures s.diners[pid].open && s.diners[pid].session == sid
            && (s.seen[pid].touched.Some? ==> s.clock - s.seen[pid].touched.value <= cfg.ttl - cfg.slack)
            && sid < |s.sessions| && s.clock < s.sessions[sid].openedAt + cfg.absMax ==>
              LetIn(s, Request(cfg, s, pid, sid, touch), Check(cfg, s, pid, sid), pid, touch)
  {
    RunKeeps(cfg, EMPTY, steps);
    if s.seen[pid].touched.Some? && s.clock - s.seen[pid].touched.value >= cfg.ttl {
      IdleIsTurnedAway(cfg, s, pid, sid, touch);
    }
    if s.diners[pid].open && s.diners[pid].session == sid
       && (s.seen[pid].touched.Some? ==> s.clock - s.seen[pid].touched.value <= cfg.ttl - cfg.slack)
       && sid < |s.sessions| && s.clock < s.sessions[sid].openedAt + cfg.absMax {
      PresentIsLetIn(cfg, s, pid, sid, touch);
    }
  }

  /** What the partial unique index on active sessions demands. */
  predicate OneActivePerTable(sessions: seq<Session>) {
    forall i, j | 0 <= i < j < |sessions| && sessions[i].active && sessions[j].active ::
      sessions[i].table != sessions[j].table
  }

  lemma {:induction false} NoneActive(sessions: seq<Session>, table: nat)
    requires ActiveAt(sessions, table).None?
    ensures forall i | 0 <= i < |sessions| && sessions[i].active :: sessions[i].table != table
  {
    if sessions != [] {
      var most := sessions[..|sessions| - 1];
      NoneActive(most, table);
      assert forall i | 0 <= i < |most| :: sessions[i] == most[i];
    }
  }

  lemma {:induction false} CloseAllStaysUnique(s: State, picked: seq<nat>)
    requires OneActivePerTable(s.sessions) && forall k | 0 <= k < |picked| :: picked[k] < |s.sessions|
    ensures OneActivePerTable(CloseAll(s, picked).sessions)
    decreases |picked|
  {
    if picked != [] { CloseAllStaysUnique(CloseTable(s, s.sessions[picked[0]].table), picked[1..]); }
  }

  lemma StepStaysUnique(cfg: Config, s: State, step: Step)
    requires |s.seen| == |s.diners| && Enabled(s, step) && OneActivePerTable(s.sessions)
    ensures OneActivePerTable(Next(cfg, s, step).sessions)
  {
    if (step.Joins? || step.JoinsLate?) && ActiveAt(s.sessions, step.table).None? {
      NoneActive(s.sessions, step.table);
    }
    if step.JoinsLate? { ActiveAtMeans(s.sessions, step.table); }
    if step.Sweeps? { CloseAllStaysUnique(s, Selected(cfg, s, |s.sessions|)); }
  }

  /** In every reachable state a table has at most one active session, also when
      several scans found none before the first of them inserted one. */
  lemma {:induction false} TableHasOneSession(cfg: Config, s: State, steps: seq<Step>)
    requires |s.seen| == |s.diners| && OneActivePerTable(s.sessions) && Exec(cfg, s, steps).Some?
    ensures OneActivePerTable(Exec(cfg, s, steps).value.sessions)
    decreases |steps|
  {
    if steps != [] {
      StepStaysUnique(cfg, s, steps[0]);
      TableHasOneSession(cfg, Next(cfg, s, steps[0]), steps[1..]);
    }
  }

  // -------------------------------------------------------- who keeps a table

  /** Somebody else of the session is still there. */
  predicate OthersOpen(s: State, pid: nat)
    requires pid < |s.diners|
  {
    exists q | 0 <= q < |s.diners| && q != pid :: s.diners[q].session == s.diners[pid].session && s.diners[q].open
  }

  /** A diner is gone: the session stays as it is while somebody else is there or there
      is something to charge, and otherwise it is over; nobody else is touched. */
  predicate GoneOrFreed(s: State, s': State, pid: nat)
    requires pid < |s.diners| && s.diners[pid].session < |s.sessions|
  {
    var sid := s.diners[pid].session;
    && |s'.diners| == |s.diners| && s'.diners == s.diners[pid := s'.diners[pid]]
    && !s'.diners[pid].open && s'.seen == s.seen && s'.clock == s.clock
    && s'.sessions
       == (if OthersOpen(s, pid) || s.sessions[sid].billable then s.sessions
           else s.sessions[sid := s.sessions[sid].(active := false)])
  }

  /** Closing a table that has one active session, with nobody open in it, only ends
      that session. */
  lemma CloseEmptyTable(s: State, sid: nat)
    requires sid < |s.sessions| && s.sessions[sid].active && OneActivePerTable(s.sessions)
    requires forall p | 0 <= p < |s.diners| :: s.diners[p].session == sid ==> !s.diners[p].open
    ensures CloseTable(s, s.sessions[sid].table) == s.(sessions := s.sessions[sid := s.sessions[sid].(active := false)])
  {
    var table := s.sessions[sid].table;
    forall p | 0 <= p < |s.diners| ensures !SitsAt(s.diners[p], s.sessions, table) {}
    var s' := CloseTable(s, table);
    assert s'.diners == s.diners;
    forall i | 0 <= i < |s.sessions|
      ensures s'.sessions[i] == s.sessions[sid := s.sessions[sid].(active := false)][i]
    {
      if i != sid && s.sessions[i].table == table {
        assert !s.sessions[i].active;
        assert s.sessions[i].(active := false) == s.sessions[i];
      }
    }
    assert s'.sessions == s.sessions[sid := s.sessions[sid].(active := false)];
  }

  lemma AbandonFrees(cfg: Config, s: State, pid: nat)
    requires Inv(cfg, s) && OneActivePerTable(s.sessions) && pid < |s.diners|
    requires s.diners[pid].session < |s.sessions|
    ensures GoneOrFreed(s, Abandon(s, pid), pid)
  {
    var sid := s.diners[pid].session;
    var s1 := s.(diners := s.diners[pid := CloseDiner(s.diners[pid], s.clock)]);
    assert (exists p | 0 <= p < |s1.diners| :: s1.diners[p].session == sid && s1.diners[p].open)
           <==> OthersOpen(s, pid) by {
      if OthersOpen(s, pid) {
        var q :| 0 <= q < |s.diners| && q != pid && s.diners[q].session == sid && s.diners[q].open;
        assert s1.diners[q].session == sid && s1.diners[q].open;
      }
    }
    if s.sessions[sid].active {
      if !OthersOpen(s, pid) && !s.sessions[sid].billable { CloseEmptyTable(s1, sid); }
    } else {
      assert s.sessions[sid := s.sessions[sid].(active := false)] == s.sessions;
    }
  }

  /** So it is in every run when a diner leaves, or is turned away as expired. */
  lemma TableIsKeptOrFreed(cfg: Config, steps: seq<Step>, s: State, pid: nat, sid: nat, touch: bool)
    requires cfg.slack > 0 && Reached(cfg, steps, s) && pid < |s.diners|
    ensures |s.seen| == |s.diners| && s.diners[pid].session < |s.sessions|
    ensures GoneOrFreed(s, Next(cfg, s, Leaves(pid)), pid)
    ensures Check(cfg, s, pid, sid) == Expired ==> GoneOrFreed(s, Next(cfg, s, Requests(pid, sid, touch)), pid)
  {
    RunKeeps(cfg, EMPTY, steps);
    TableHasOneSession(cfg, EMPTY, steps);
    assert Seated(s, pid);
    AbandonFrees(cfg, s, pid);
  }

  // ---------------------------------------------------------------- closed for good

  /** A closed diner stays exactly as he is. One who is closed now keeps his seat and
      his window, has no open cart, and was closed at this moment. */
  predicate ClosedOnce(d: Diner, d': Diner, now: int) {
    && (!d.open ==> d' == d)
    && (d.open && !d'.open ==> d' == Diner(d.session, false, d.expires, Some(now), false))
    && (d.open && d'.open ==> d'.session == d.session && d'.closedAt == d.closedAt && d'.cartOpen == d.cartOpen)
  }

  /** All earlier diners of one state are in the other, closed at most once. */
  predicate AllClosedOnce(s: State, s': State) {
    |s.diners| <= |s'.diners| && forall p | 0 <= p < |s.diners| :: ClosedOnce(s.diners[p], s'.diners[p], s.clock)
  }

  /** Open diners were never closed. */
  predicate Unclosed(s: State) {
    forall p | 0 <= p < |s.diners| && s.diners[p].open :: s.diners[p].closedAt.None?
  }

  lemma CloseTableOnce(s: State, table: nat)
    requires Unclosed(s)
    ensures Unclosed(CloseTable(s, table)) && AllClosedOnce(s, CloseTable(s, table))
  {
  }

  lemma {:induction false} CloseAllOnce(s: State, picked: seq<nat>)
    requires Unclosed(s) && forall k | 0 <= k < |picked| :: picked[k] < |s.sessions|
    ensures Unclosed(CloseAll(s, picked)) && AllClosedOnce(s, CloseAll(s, picked))
    decreases |picked|
  {
    if picked != [] {
      var s1 := CloseTable(s, s.sessions[picked[0]].table);
      CloseTableOnce(s, s.sessions[picked[0]].table);
      CloseAllOnce(s1, picked[1..]);
      OnceAndAgain(s, s1, CloseAll(s, picked));
    }
  }

  lemma OnceAndAgain(s: State, s1: State, s2: State)
    requires AllClosedOnce(s, s1) && AllClosedOnce(s1, s2) && s1.clock == s.clock
    requires forall p | 0 <= p < |s.diners| && s1.diners[p].open :: s1.diners[p] == s.diners[p]
    ensures AllClosedOnce(s, s2)
  {
    forall p | 0 <= p < |s.diners| ensures ClosedOnce(s.diners[p], s2.diners[p], s.clock) {
      assert ClosedOnce(s.diners[p], s1.diners[p], s.clock) && ClosedOnce(s1.diners[p], s2.diners[p], s.clock);
    }
  }

  lemma AbandonOnce(cfg: Config, s: State, pid: nat)
    requires Inv(cfg, s) && Unclosed(s) && pid < |s.diners|
    ensures Unclosed(Abandon(s, pid)) && AllClosedOnce(s, Abandon(s, pid))
  {
    var s1 := s.(diners := s.diners[pid := CloseDiner(s.diners[pid], s.clock)]);
    var sid := s.diners[pid].session;
    assert Seated(s, pid);
    assert AllClosedOnce(s, s1) && Unclosed(s1);
    CloseTableOnce(s1, s1.sessions[sid].table);
    OnceAndAgain(s, s1, CloseTable(s1, s1.sessions[sid].table));
  }

  lemma RequestOnce(cfg: Config, s: State, pid: nat, sid: nat, touch: bool)
    requires Inv(cfg, s) && Unclosed(s)
    ensures Unclosed(Request(cfg, s, pid, sid, touch)) && AllClosedOnce(s, Request(cfg, s, pid, sid, touch))
  {
    if Check(cfg, s, pid, sid) == Expired { AbandonOnce(cfg, s, pid); }
  }

  lemma StepClosesOnce(cfg: Config, s: State, step: Step)
    requires Inv(cfg, s) && Unclosed(s) && Enabled(s, step)
    ensures Unclosed(Next(cfg, s, step)) && AllClosedOnce(s, Next(cfg, s, step))
  {
    match step
    case Sweeps => CloseAllOnce(s, Selected(cfg, s, |s.sessions|));
    case Leaves(pid) => AbandonOnce(cfg, s, pid);
    case Requests(pid, sid, touch) => RequestOnce(cfg, s, pid, sid, touch);
    case Closes(table) => CloseTableOnce(s, table);
    case _ =>
  }

  lemma {:induction false} RunClosesOnce(cfg: Config, s: State, steps: seq<Step>)
    requires cfg.slack > 0 && Inv(cfg, s) && Unclosed(s) && Exec(cfg, s, steps).Some?
    ensures Unclosed(Exec(cfg, s, steps).value)
    decreases |steps|
  {
    if steps != [] {
      StepKeeps(cfg, s, steps[0]);
      StepClosesOnce(cfg, s, steps[0]);
      RunClosesOnce(cfg, Next(cfg, s, steps[0]), steps[1..]);
    }
  }

  /** In every run, whatever happens next: nobody is opened again, the first closing
      time stays, and whoever is closed has no open cart. */
  lemma ClosedForGood(cfg: Config, steps: seq<Step>, s: State, step: Step)
    requires cfg.slack > 0 && Reached(cfg, steps, s) && |s.seen| == |s.diners| && Enabled(s, step)
    ensures AllClosedOnce(s, Next(cfg, s, step))
  {
    RunKeeps(cfg, EMPTY, steps);
    RunClosesOnce(cfg, EMPTY, steps);
    StepClosesOnce(cfg, s, step);
  }

  /** What closing a table does, in every run: its active sessions are over and their
      diners are gone; no other session and nobody at another table is touched. */
  lemma ClosingEmptiesTable(cfg: Config, steps: seq<Step>, s: State, table: nat)
    requires cfg.slack > 0 && Reached(cfg, steps, s) && |s.seen| == |s.diners|
    ensures var s' := Next(cfg, s, Closes(table));
            && |s'.sessions| == |s.sessions| && |s'.diners| == |s.diners| && s'.seen == s.seen && s'.clock == s.clock
            && (forall i | 0 <= i < |s.sessions| ::
                  s'.sessions[i] == if s.sessions[i].table == table then s.sessions[i].(active := false)
                                    else s.sessions[i])
            && (forall p | 0 <= p < |s.diners| ::
                  var at := s.diners[p].session;
                  && at < |s.sessions|
                  && (s.sessions[at].table == table ==> !s'.diners[p].open)
                  && (s.sessions[at].table != table ==> s'.diners[p] == s.diners[p]))
  {
    RunKeeps(cfg, EMPTY, steps);
    var s' := Next(cfg, s, Closes(table));
    forall p | 0 <= p < |s.diners|
      ensures var at := s.diners[p].session;
              && at < |s.sessions|
              && (s.sessions[at].table == table ==> !s'.diners[p].open)
              && (s.sessions[at].table != table ==> s'.diners[p] == s.diners[p])
    {
      assert Seated(s, p);
    }
  }

  // ------------------------------------------------------- who sits down where

  /** A scan in any run: a new open diner with a full window, active now, in an active
      session of the table, which is the one that was there or, if there was none, a new
      one; nobody else is touched. A late insert does the same if there is none and
      nothing otherwise. */
  predicate Seats(cfg: Config, s: State, s': State, table: nat) {
    var pid := |s.diners|;
    && |s.seen| == |s.diners| && s'.clock == s.clock && |s'.diners| == pid + 1 == |s'.seen|
    && s'.diners[..pid] == s.diners && s'.seen[..pid] == s.seen
    && s'.diners[pid].open && s'.diners[pid].expires == Some(s.clock + cfg.ttl) && s'.diners[pid].cartOpen
    && s'.seen[pid].touched == Some(s.clock)
    && s'.diners[pid].session < |s'.sessions|
    && s'.sessions[s'.diners[pid].session].active && s'.sessions[s'.diners[pid].session].table == table
    && s'.sessions == (if HasActive(s, table) then s.sessions
                       else s.sessions + [Session(table, true, s.clock, false)])
  }

  predicate HasActive(s: State, table: nat) {
    exists i | 0 <= i < |s.sessions| :: s.sessions[i].active && s.sessions[i].table == table
  }

  lemma ScanSeats(cfg: Config, s: State, table: nat)
    requires |s.seen| == |s.diners|
    ensures Seats(cfg, s, Next(cfg, s, Joins(table)), table)
    ensures var late := Next(cfg, s, JoinsLate(table));
            if HasActive(s, table) then late == s else Seats(cfg, s, late, table)
  {
    ActiveAtMeans(s.sessions, table);
    if ActiveAt(s.sessions, table).None? {
      NoneActive(s.sessions, table);
      assert !HasActive(s, table);
    } else {
      assert s.sessions[ActiveAt(s.sessions, table).value].active;
    }
  }

  /** In every run a step adds at most one diner, open and in a session that is active,
      and only a scan or staff does; what staff add, exactly in an active session, has
      no window and no cart. */
  lemma NewcomersSit(cfg: Config, steps: seq<Step>, s: State, step: Step)
    requires cfg.slack > 0 && Reached(cfg, steps, s) && |s.seen| == |s.diners| && Enabled(s, step)
    ensures var s', n := Next(cfg, s, step), |s.diners|;
            && n <= |s'.diners| <= n + 1
            && (|s'.diners| == n + 1 ==>
                  && (step.Joins? || step.JoinsLate? || step.StaffAdds?)
                  && s'.diners[..n] == s.diners && s'.diners[n].open
                  && s'.diners[n].session < |s'.sessions| && s'.sessions[s'.diners[n].session].active)
            && (step.StaffAdds? ==>
                  if s.sessions[step.sid].active then s'.diners == s.diners + [Diner(step.sid, true, None, None, false)]
                  else s' == s)
  {
    RunKeeps(cfg, EMPTY, steps);
    StepKeeps(cfg, s, step);
    if step.Joins? || step.JoinsLate? { ScanSeats(cfg, s, step.table); }
    if step.Leaves? || step.Requests? { assert |Next(cfg, s, step).diners| == |s.diners|; }
  }

  /** A session with something to charge is never swept, in any run. */
  lemma SweepSparesOrders(cfg: Config, steps: seq<Step>, s: State, sid: nat)
    requires Reached(cfg, steps, s) && sid < |s.sessions| && s.sessions[sid].active && s.sessions[sid].billable
    ensures sid !in Selected(cfg, s, |s.sessions|)
    ensures Next(cfg, s, Sweeps).sessions[sid] == s.sessions[sid]
  {
    TableHasOneSession(cfg, EMPTY, steps);
    SelectedExactly(cfg, s, |s.sessions|);
    var picked := Selected(cfg, s, |s.sessions|);
    forall k | 0 <= k < |picked| ensures s.sessions[picked[k]].table != s.sessions[sid].table {
      assert picked[k] in picked && Abandoned(cfg, s, picked[k]);
    }
    CloseAllSpares(s, picked, sid);
  }

  lemma {:induction false} CloseAllSpares(s: State, picked: seq<nat>, sid: nat)
    requires sid < |s.sessions| && forall k | 0 <= k < |picked| :: picked[k] < |s.sessions|
    requires forall k | 0 <= k < |picked| :: s.sessions[picked[k]].table != s.sessions[sid].table
    ensures CloseAll(s, picked).sessions[sid] == s.sessions[sid]
    decreases |picked|
  {
    if picked != [] {
      var s' := CloseTable(s, s.sessions[picked[0]].table);
      forall k | 0 <= k < |picked[1..]| ensures s'.sessions[picked[1..][k]].table != s'.sessions[sid].table {
        assert picked[1..][k] == picked[k + 1];
      }
      CloseAllSpares(s', picked[1..], sid);
    }
  }
}
