/**
 The diners' tables as they are changed in place, each operation proved to take
 the step of the diner window model.
 */
module DinerSessions {
  import opened Options
  import opened DinerWindow

  class Hall {
    const cfg: Config
    var diners: seq<Diner>
    var sessions: seq<Session>
    ghost var seen: seq<History>

    ghost function State(now: int): DinerWindow.State
      reads this
    {
      DinerWindow.State(now, diners, sessions, seen)
    }

    constructor (cfg: Config)
      ensures this.cfg == cfg && State(0) == EMPTY
    {
      this.cfg := cfg;
      diners, sessions, seen := [], [], [];
    }

    /** `close_participant` */
    method CloseParticipant(pid: nat, now: int)
      requires pid < |diners|
      modifies this`diners
      ensures diners == old(diners)[pid := CloseDiner(old(diners)[pid], now)]
    {
      var d := diners[pid].(open := false);
      if d.closedAt.None? { d := d.(closedAt := Some(now)); }
      d := d.(cartOpen := false);
      diners := diners[pid := d];
    }

    /** `close_table_sessions`, which goes over the table's active sessions and the
        open diners of each. */
    method CloseTableSessions(table: nat, now: int)
      modifies this`diners, this`sessions
      ensures State(now) == CloseTable(old(State(now)), table)
    {
      ghost var ds, ss := diners, sessions;
      ghost var goal := CloseTable(State(now), table);
      for i := 0 to |sessions|
        invariant |sessions| == |ss| && |diners| == |ds| && seen == old(seen)
        invariant forall k | 0 <= k < i :: sessions[k] == goal.sessions[k]
        invariant forall k | i <= k < |ss| :: sessions[k] == ss[k]
        invariant forall p | 0 <= p < |ds| :: diners[p] == if ds[p].session < i then goal.diners[p] else ds[p]
      {
        if sessions[i].active && sessions[i].table == table {
          sessions := sessions[i := sessions[i].(active := false)];
          ghost var closed := sessions;
          for p := 0 to |diners|
            invariant |diners| == |ds| && seen == old(seen) && sessions == closed
            invariant forall q | 0 <= q < |ds| ::
                        diners[q] == if ds[q].session < i || (ds[q].session == i && q < p)
                                     then goal.diners[q] else ds[q]
          {
            if diners[p].session == i && diners[p].open { CloseParticipant(p, now); }
          }
        }
      }
    }

    /** `try_release_if_empty` */
    method TryReleaseIfEmpty(sid: nat, now: int)
      modifies this`diners, this`sessions
      ensures State(now) == ReleaseIfEmpty(old(State(now)), sid)
    {
      if sid >= |sessions| || !sessions[sid].active { return; }
      for p := 0 to |diners|
        invariant State(now) == old(State(now))
        invariant forall q | 0 <= q < p :: !(diners[q].session == sid && diners[q].open)
      {
        if diners[p].session == sid && diners[p].open { return; }
      }
      if sessions[sid].billable { return; }
      CloseTableSessions(sessions[sid].table, now);
    }

    /** The diner's last activity is `age` ago or more. */
    ghost predicate Idle(now: int, pid: nat, age: int)
      requires pid < |seen|
      reads this
    {
      seen[pid].touched.Some? && now - seen[pid].touched.value >= age
    }

    /** An open diner of the session, active within the window less the slack, before
        the absolute limit. */
    ghost predicate Present(now: int, pid: nat, sid: nat)
      requires pid < |seen| == |diners|
      reads this
    {
      && diners[pid].open && diners[pid].session == sid && !Idle(now, pid, cfg.ttl - cfg.slack + 1)
      && sid < |sessions| && now < sessions[sid].openedAt + cfg.absMax
    }

    /** `open_session_context`, for a token whose signature and expiry hold. */
    method OpenSessionContext(pid: nat, sid: nat, now: int, touch: bool) returns (answer: Answer)
      requires |seen| == |diners|
      modifies this
      ensures answer == Check(cfg, old(State(now)), pid, sid)
      ensures State(now) == Request(cfg, old(State(now)), pid, sid, touch)
      ensures old(Inv(cfg, State(now)) && pid < |diners| && Idle(now, pid, cfg.ttl)) ==>
                TurnedAway(old(State(now)), State(now), answer, pid, sid)
      ensures old(Inv(cfg, State(now)) && pid < |diners| && Present(now, pid, sid)) ==>
                LetIn(old(State(now)), State(now), answer, pid, touch)
    {
      if Inv(cfg, State(now)) && pid < |diners| && Idle(now, pid, cfg.ttl) {
        IdleIsTurnedAway(cfg, State(now), pid, sid, touch);
      }
      if Inv(cfg, State(now)) && pid < |diners| && Present(now, pid, sid) {
        PresentIsLetIn(cfg, State(now), pid, sid, touch);
      }
      if pid >= |diners| || !diners[pid].open { return Closed; }
      if sid >= |sessions| || !sessions[sid].active || diners[pid].session != sid { return Closed; }
      if diners[pid].expires.Some? && diners[pid].expires.value <= now {
        CloseParticipant(pid, now);
        TryReleaseIfEmpty(diners[pid].session, now);
        return Expired;
      }
      if sessions[sid].openedAt + cfg.absMax <= now { return TooLong; }
      if touch && ShouldRefresh(cfg, diners[pid], now) {
        diners := diners[pid := diners[pid].(expires := Some(now + cfg.ttl))];
        seen := seen[pid := History(Some(now), seen[pid].writes + [now])];
      } else if touch {
        seen := seen[pid := History(Some(now), seen[pid].writes)];
      }
      answer := Welcome;
    }

    /** `_abandonadas_sin_pedir`: the query, then the filter on orders. */
    method AbandonedWithoutOrders(now: int) returns (picked: seq<nat>)
      ensures picked == Selected(cfg, State(now), |sessions|)
    {
      picked := [];
      for sid := 0 to |sessions|
        invariant picked == Selected(cfg, State(now), sid)
      {
        if sessions[sid].active {
          var kept := false;
          for p := 0 to |diners|
            invariant kept <==> exists q | 0 <= q < p :: diners[q].session == sid && KeepsTable(cfg, diners[q], now)
          {
            kept := kept || (diners[p].session == sid && KeepsTable(cfg, diners[p], now));
          }
          if !kept && !sessions[sid].billable { picked := picked + [sid]; }
        }
      }
    }

    /** `_sweep_schema`, restricted to tables abandoned without orders. */
    method Sweep(now: int) returns (touched: nat)
      requires |seen| == |diners|
      modifies this`diners, this`sessions
      ensures State(now) == Next(cfg, old(State(now)), Sweeps)
      ensures touched == |Selected(cfg, old(State(now)), |old(sessions)|)|
    {
      var picked := AbandonedWithoutOrders(now);
      ghost var before := State(now);
      touched := 0;
      while touched < |picked|
        invariant touched <= |picked| && |sessions| == |before.sessions|
        invariant CloseAll(State(now), picked[touched..]) == CloseAll(before, picked)
      {
        assert picked[touched..][0] == picked[touched] && picked[touched..][1..] == picked[touched + 1..];
        CloseTableSessions(sessions[picked[touched]].table, now);
        touched := touched + 1;
      }
    }
  }
}
