/**
 The two rate limits kept in Redis: a counter that expires a fixed time after its
 first hit, and a sorted set of the times of admitted calls. Times are whole
 units of a clock that never goes back.
 */
module RateLimit {
  import opened Options

  // ------------------------------------------------------- fixed window, one key

  /** A counter as Redis keeps it, with the number of its life and the time of the
      first hit of that life; `unset` while that hit's EXPIRE has not arrived. */
  datatype Counter = Counter(count: nat, expiry: Option<int>, unset: bool, life: nat, start: int)

  const ABSENT := Counter(0, None, false, 0, 0)

  predicate Alive(c: Counter, now: int) { c.count > 0 && (c.expiry.None? || now < c.expiry.value) }

  /** INCR */
  function Incr(c: Counter, now: int): Counter {
    if Alive(c, now) then c.(count := c.count + 1) else Counter(1, None, true, c.life + 1, now)
  }

  /** EXPIRE */
  function Expire(c: Counter, window: int, now: int): Counter {
    if Alive(c, now) then c.(expiry := Some(now + window), unset := false) else c
  }

  /** A hit: when, in which life of the counter, and the count it was told. */
  datatype Hit = Hit(at: int, life: nat, count: nat)

  /** INCR and EXPIRE of different requests interleave; an EXPIRE may never come. */
  datatype Step = Hits(now: int) | Expires(now: int)

  datatype Window = Window(counter: Counter, clock: int, log: seq<Hit>)

  const FRESH := Window(ABSENT, 0, [])

  predicate Enabled(w: Window, step: Step) {
    step.now >= w.clock && (step.Expires? ==> w.counter.unset)
  }

  function Next(window: int, w: Window, step: Step): Window {
    match step
    case Hits(now) =>
      var c := Incr(w.counter, now);
      Window(c, now, w.log + [Hit(now, c.life, c.count)])
    case Expires(now) => Window(Expire(w.counter, window, now), now, w.log)
  }

  function Exec(window: int, w: Window, steps: seq<Step>): Option<Window>
    decreases |steps|
  {
    if steps == [] then Some(w)
    else if Enabled(w, steps[0]) then Exec(window, Next(window, w, steps[0]), steps[1..])
    else None
  }

  predicate Admitted(h: Hit, limit: nat) { h.count <= limit }

  function AdmittedIn(log: seq<Hit>, limit: nat, from: int, to: int): nat {
    if log == [] then 0
    else
      var h := log[|log| - 1];
      AdmittedIn(log[..|log| - 1], limit, from, to) + if from <= h.at <= to && Admitted(h, limit) then 1 else 0
  }

  lemma AdmittedMore(log: seq<Hit>, h: Hit, limit: nat, from: int, to: int)
    ensures AdmittedIn(log + [h], limit, from, to)
            == AdmittedIn(log, limit, from, to) + if from <= h.at <= to && Admitted(h, limit) then 1 else 0
  {
    assert (log + [h])[..|log|] == log;
  }

  function AdmittedInLife(log: seq<Hit>, limit: nat, life: nat): nat {
    if log == [] then 0
    else
      var h := log[|log| - 1];
      AdmittedInLife(log[..|log| - 1], limit, life) + if h.life == life && Admitted(h, limit) then 1 else 0
  }

  function Min(a: nat, b: nat): nat { if a <= b then a else b }

  /** Hits of earlier lives lie before the current one, and those two lives back
      more than a window before it. */
  predicate HitOk(window: int, w: Window, h: Hit) {
    && h.life <= w.counter.life && h.at <= w.clock
    && (h.life < w.counter.life ==> h.at < w.counter.start)
    && (h.life + 2 <= w.counter.life ==> h.at + window < w.counter.start)
    && (w.counter.expiry.Some? ==> h.at < w.counter.expiry.value)
  }

  predicate Far(window: int, a: Hit, b: Hit) {
    a.life <= b.life && a.at <= b.at && (a.life + 2 <= b.life ==> a.at + window < b.at)
  }

  ghost predicate Inv(window: int, limit: nat, w: Window) {
    && (w.counter.count == 0 ==> w.log == [])
    && w.counter.start <= w.clock
    && (w.counter.expiry.Some? ==> w.counter.expiry.value >= w.counter.start + window)
    && (forall i | 0 <= i < |w.log| :: HitOk(window, w, w.log[i]))
    && (forall i, j | 0 <= i < j < |w.log| :: Far(window, w.log[i], w.log[j]))
    && LivesOk(w.log, limit, w.counter.life, w.counter.count)
  }

  /** Each life admits at most the limit, the current one as many as it counted, and
      there are no later ones. */
  ghost predicate LivesOk(log: seq<Hit>, limit: nat, current: nat, count: nat) {
    && (forall life: nat :: AdmittedInLife(log, limit, life) <= limit)
    && AdmittedInLife(log, limit, current) == Min(count, limit)
    && (forall life: nat | life > current :: AdmittedInLife(log, limit, life) == 0)
  }

  lemma AdmittedInLifeMore(log: seq<Hit>, h: Hit, limit: nat, life: nat)
    ensures AdmittedInLife(log + [h], limit, life)
            == AdmittedInLife(log, limit, life) + if h.life == life && Admitted(h, limit) then 1 else 0
  {
    assert (log + [h])[..|log|] == log;
  }

  /** One earlier hit, after another. */
  lemma OldHitOk(window: int, limit: nat, w: Window, now: int, i: nat)
    requires window > 0 && Inv(window, limit, w) && now >= w.clock && i < |w.log|
    ensures var w' := Next(window, w, Hits(now));
            w'.log[i] == w.log[i] && HitOk(window, w', w.log[i]) && Far(window, w.log[i], w'.log[|w.log|])
  {
    assert HitOk(window, w, w.log[i]);
  }

  lemma HitsStayOk(window: int, limit: nat, w: Window, now: int)
    requires window > 0 && Inv(window, limit, w) && now >= w.clock
    ensures var w' := Next(window, w, Hits(now));
            && (forall i | 0 <= i < |w'.log| :: HitOk(window, w', w'.log[i]))
            && (forall i, j | 0 <= i < j < |w'.log| :: Far(window, w'.log[i], w'.log[j]))
  {
    var w' := Next(window, w, Hits(now));
    forall i | 0 <= i < |w'.log| ensures HitOk(window, w', w'.log[i]) {
      if i < |w.log| { OldHitOk(window, limit, w, now, i); }
    }
    forall i, j | 0 <= i < j < |w'.log| ensures Far(window, w'.log[i], w'.log[j]) {
      OldHitOk(window, limit, w, now, i);
      if j < |w.log| { assert w'.log[j] == w.log[j] && Far(window, w.log[i], w.log[j]); }
    }
  }

  lemma LivesGoOn(log: seq<Hit>, limit: nat, current: nat, count: nat, h: Hit)
    requires LivesOk(log, limit, current, count)
    requires (h.life == current && h.count == count + 1) || (h.life == current + 1 && h.count == 1)
    ensures LivesOk(log + [h], limit, h.life, h.count)
  {
    forall life: nat
      ensures AdmittedInLife(log + [h], limit, life)
              == AdmittedInLife(log, limit, life) + if h.life == life && Admitted(h, limit) then 1 else 0
    {
      AdmittedInLifeMore(log, h, limit, life);
    }
  }

  lemma HitKeeps(window: int, limit: nat, w: Window, now: int)
    requires window > 0 && Inv(window, limit, w) && now >= w.clock
    ensures Inv(window, limit, Next(window, w, Hits(now)))
  {
    var c := Incr(w.counter, now);
    HitsStayOk(window, limit, w, now);
    LivesGoOn(w.log, limit, w.counter.life, w.counter.count, Hit(now, c.life, c.count));
  }

  lemma ExpireKeeps(window: int, limit: nat, w: Window, now: int)
    requires window > 0 && Inv(window, limit, w) && now >= w.clock
    ensures Inv(window, limit, Next(window, w, Expires(now)))
  {
    var w' := Next(window, w, Expires(now));
    forall i | 0 <= i < |w'.log| ensures HitOk(window, w', w'.log[i]) { assert HitOk(window, w, w.log[i]); }
    forall i, j | 0 <= i < j < |w'.log| ensures Far(window, w'.log[i], w'.log[j]) {
      assert Far(window, w.log[i], w.log[j]);
    }
  }

  lemma {:induction false} RunKeeps(window: int, limit: nat, w: Window, steps: seq<Step>)
    requires window > 0 && Inv(window, limit, w) && Exec(window, w, steps).Some?
    ensures Inv(window, limit, Exec(window, w, steps).value)
    decreases |steps|
  {
    if steps != [] {
      if steps[0].Hits? {
        HitKeeps(window, limit, w, steps[0].now);
      } else {
        ExpireKeeps(window, limit, w, steps[0].now);
      }
      RunKeeps(window, limit, Next(window, w, steps[0]), steps[1..]);
    }
  }

  /** When the hits of an interval belong to two lives, each admits at most the limit. */
  lemma {:induction false} TwoLives(log: seq<Hit>, limit: nat, from: int, to: int, life: nat)
    requires forall i | 0 <= i < |log| && from <= log[i].at <= to :: log[i].life == life || log[i].life == life + 1
    ensures AdmittedIn(log, limit, from, to) <= AdmittedInLife(log, limit, life) + AdmittedInLife(log, limit, life + 1)
  {
    if log != [] {
      var most := log[..|log| - 1];
      assert forall i | 0 <= i < |most| :: most[i] == log[i];
      assert log[|log| - 1] == log[|log| - 1];
      TwoLives(most, limit, from, to, life);
    }
  }

  /** In any interval of the length of the window, its ends included, at most
      twice the limit of hits on a key is admitted. */
  lemma FixedWindowBound(window: int, limit: nat, steps: seq<Step>, from: int)
    requires window > 0 && Exec(window, FRESH, steps).Some?
    ensures AdmittedIn(Exec(window, FRESH, steps).value.log, limit, from, from + window) <= 2 * limit
  {
    RunKeeps(window, limit, FRESH, steps);
    var log := Exec(window, FRESH, steps).value.log;
    var first := FirstIn(log, from, from + window);
    if first < |log| {
      forall i | 0 <= i < |log| && from <= log[i].at <= from + window
        ensures log[i].life == log[first].life || log[i].life == log[first].life + 1
      {
        if first < i { assert Far(window, log[first], log[i]); }
      }
      TwoLives(log, limit, from, from + window, log[first].life);
    } else {
      TwoLives(log, limit, from, from + window, 0);
    }
  }

  function FirstIn(log: seq<Hit>, from: int, to: int): (i: nat)
    ensures i <= |log|
    ensures i < |log| ==> from <= log[i].at <= to
    ensures forall j | 0 <= j < i :: !(from <= log[j].at <= to)
  {
    if log == [] then 0
    else if from <= log[0].at <= to then 0
    else
      var rest := log[1..];
      assert forall j | 1 <= j < |log| :: log[j] == rest[j - 1];
      1 + FirstIn(rest, from, to)
  }

  // --------------------------------------------------------- the bound is reached

  lemma {:induction false} ExecConcat(window: int, w: Window, a: seq<Step>, b: seq<Step>)
    requires Exec(window, w, a).Some?
    ensures Exec(window, w, a + b) == Exec(window, Exec(window, w, a).value, b)
    decreases |a|
  {
    if a == [] {
      assert a + b == b;
    } else {
      assert (a + b)[1..] == a[1..] + b;
      ExecConcat(window, Next(window, w, a[0]), a[1..], b);
    }
  }

  function Burst(now: int, n: nat): seq<Step> {
    if n == 0 then [] else [Hits(now)] + Burst(now, n - 1)
  }

  lemma {:induction false} BurstRuns(window: int, limit: nat, w: Window, now: int, n: nat, from: int, to: int)
    requires Alive(w.counter, now) && w.clock <= now && from <= now <= to && w.counter.count + n <= limit
    ensures Exec(window, w, Burst(now, n)).Some?
    ensures var w' := Exec(window, w, Burst(now, n)).value;
            && w'.counter == w.counter.(count := w.counter.count + n) && w'.clock <= now
            && AdmittedIn(w'.log, limit, from, to) == AdmittedIn(w.log, limit, from, to) + n
    decreases n
  {
    if n > 0 {
      var w1 := Next(window, w, Hits(now));
      AdmittedMore(w.log, Hit(now, w1.counter.life, w1.counter.count), limit, from, to);
      BurstRuns(window, limit, w1, now, n - 1, from, to);
      assert Burst(now, n)[1..] == Burst(now, n - 1);
    }
  }

  /** The first hit, with its EXPIRE. */
  lemma OpeningRuns(window: int, limit: nat)
    requires window > 0 && limit > 0
    ensures Exec(window, FRESH, [Hits(0), Expires(0)])
            == Some(Window(Counter(1, Some(window), false, 1, 0), 0, [Hit(0, 1, 1)]))
    ensures AdmittedIn([Hit(0, 1, 1)], limit, 0, window) == 1
  {
    var w1 := Next(window, FRESH, Hits(0));
    assert [Hits(0), Expires(0)][1..] == [Expires(0)];
    assert Exec(window, w1, [Expires(0)]) == Some(Next(window, w1, Expires(0)));
    AdmittedMore([], Hit(0, 1, 1), limit, 0, window);
    assert [] + [Hit(0, 1, 1)] == [Hit(0, 1, 1)];
  }

  /** One hit at the end of the window starts another life. */
  lemma ReopeningRuns(window: int, limit: nat, w: Window)
    requires window > 0 && limit > 0 && w.clock <= window && w.counter.expiry == Some(window) && w.counter.count > 0
    ensures var w' := Next(window, w, Hits(window));
            && Exec(window, w, [Hits(window)]) == Some(w')
            && w'.counter == Counter(1, None, true, w.counter.life + 1, window) && w'.clock == window
            && AdmittedIn(w'.log, limit, 0, window) == AdmittedIn(w.log, limit, 0, window) + 1
  {
    AdmittedMore(w.log, Hit(window, w.counter.life + 1, 1), limit, 0, window);
  }

  /** For every limit some run admits exactly twice the limit within one window. */
  lemma TwiceTheLimitIsReached(window: int, limit: nat) returns (steps: seq<Step>)
    requires window > 0
    ensures Exec(window, FRESH, steps).Some?
    ensures AdmittedIn(Exec(window, FRESH, steps).value.log, limit, 0, window) == 2 * limit
  {
    if limit == 0 { return []; }
    OpeningRuns(window, limit);
    var w2 := Window(Counter(1, Some(window), false, 1, 0), 0, [Hit(0, 1, 1)]);
    BurstRuns(window, limit, w2, 0, limit - 1, 0, window);
    var w3 := Exec(window, w2, Burst(0, limit - 1)).value;
    ReopeningRuns(window, limit, w3);
    var w4 := Next(window, w3, Hits(window));
    BurstRuns(window, limit, w4, window, limit - 1, 0, window);
    ExecConcat(window, w3, [Hits(window)], Burst(window, limit - 1));
    ExecConcat(window, w2, Burst(0, limit - 1), [Hits(window)] + Burst(window, limit - 1));
    ExecConcat(window, FRESH, [Hits(0), Expires(0)], Burst(0, limit - 1) + ([Hits(window)] + Burst(window, limit - 1)));
    steps := [Hits(0), Expires(0)] + (Burst(0, limit - 1) + ([Hits(window)] + Burst(window, limit - 1)));
  }

  lemma LockedHit(window: int, limit: nat, w: Window, now: int, from: int, to: int)
    requires w.counter.expiry.None? && AdmittedIn(w.log, limit, from, to) <= Min(w.counter.count, limit)
    ensures var w' := Next(window, w, Hits(now));
            w'.counter.expiry.None? && AdmittedIn(w'.log, limit, from, to) <= Min(w'.counter.count, limit)
  {
    var c := Incr(w.counter, now);
    AdmittedMore(w.log, Hit(now, c.life, c.count), limit, from, to);
  }

  /** If the EXPIRE of the first hit is lost, the key admits its limit once and
      nothing ever after. */
  lemma {:induction false} LostExpiryLocksOut(window: int, limit: nat, w: Window, steps: seq<Step>, from: int, to: int)
    requires Exec(window, w, steps).Some? && forall k | 0 <= k < |steps| :: steps[k].Hits?
    requires w.counter.expiry.None? && AdmittedIn(w.log, limit, from, to) <= Min(w.counter.count, limit)
    ensures var w' := Exec(window, w, steps).value;
            AdmittedIn(w'.log, limit, from, to) <= Min(w'.counter.count, limit) <= limit
    decreases |steps|
  {
    if steps != [] {
      assert steps[0].Hits?;
      LockedHit(window, limit, w, steps[0].now, from, to);
      LostExpiryLocksOut(window, limit, Next(window, w, steps[0]), steps[1..], from, to);
    }
  }

  lemma OpenStep(window: int, w: Window, step: Step, x: int)
    requires Enabled(w, step) && step.now < x && w.counter.expiry == Some(x) && !w.counter.unset && w.counter.count > 0
    ensures var c := Next(window, w, step).counter; c.expiry == Some(x) && !c.unset && c.count > 0
  {
  }

  /** Once an EXPIRE has arrived, the first hit a window later, whatever came in
      between, starts counting at one again. */
  lemma {:induction false} ArrivedExpiryReopens(window: int, w: Window, steps: seq<Step>, x: int, now: int)
    requires w.counter.expiry == Some(x) && !w.counter.unset && w.counter.count > 0
    requires Exec(window, w, steps).Some? && (forall k | 0 <= k < |steps| :: steps[k].now < x) && x <= now
    ensures var w' := Next(window, Exec(window, w, steps).value, Hits(now));
            w'.counter.count == 1 && w'.log[|w'.log| - 1] == Hit(now, w'.counter.life, 1)
    decreases |steps|
  {
    if steps != [] {
      assert steps[0].now < x;
      OpenStep(window, w, steps[0], x);
      ArrivedExpiryReopens(window, Next(window, w, steps[0]), steps[1..], x, now);
    }
  }

  // ------------------------------------------------------------ the two counters

  datatype Key = ByIp(bucket: string, ip: string) | ByTable(bucket: string, table: int)

  class Limiter {
    const enabled: bool
    const window: int
    const perIp: nat
    const perTable: nat
    var counters: map<Key, Counter>

    constructor (enabled: bool, window: int, perIp: nat, perTable: nat)
      ensures this.enabled == enabled && this.window == window && this.perIp == perIp && this.perTable == perTable
      ensures counters == map[]
    {
      this.enabled, this.window, this.perIp, this.perTable := enabled, window, perIp, perTable;
      counters := map[];
    }

    function Now(key: Key): Counter
      reads this
    {
      if key in counters then counters[key] else ABSENT
    }

    /** `_hit`, with no other request between its two commands. */
    method Hit(key: Key, now: int) returns (count: nat)
      modifies this
      ensures count == Incr(old(Now(key)), now).count
      ensures counters == old(counters)[key := Counted(old(Now(key)), window, now)]
    {
      var c := Incr(Now(key), now);
      count := c.count;
      if count == 1 { c := Expire(c, window, now); }
      counters := counters[key := c];
    }

    /** `enforce`: the address first, then the table; a request turned away by its
        address leaves the table's quota alone. */
    method Enforce(bucket: string, ip: string, table: Option<int>, now: int) returns (refused: bool)
      modifies this
      ensures !enabled ==> !refused && counters == old(counters)
      ensures enabled ==>
                var byIp := Incr(old(Now(ByIp(bucket, ip))), now).count > perIp;
                var byTable := table.Some? && Incr(old(Now(ByTable(bucket, table.value))), now).count > perTable;
                refused == (byIp || byTable)
      ensures enabled ==>
                var hit := old(counters)[ByIp(bucket, ip) := Counted(old(Now(ByIp(bucket, ip))), window, now)];
                counters == if table.None? || Incr(old(Now(ByIp(bucket, ip))), now).count > perIp then hit
                            else var key := ByTable(bucket, table.value);
                                 hit[key := Counted(old(Now(key)), window, now)]
    {
      if !enabled { return false; }
      var checks := [(ByIp(bucket, ip), perIp)];
      if table.Some? { checks := checks + [(ByTable(bucket, table.value), perTable)]; }
      var count := Hit(checks[0].0, now);
      if count > checks[0].1 { return true; }
      if |checks| > 1 {
        count := Hit(checks[1].0, now);
        if count > checks[1].1 { return true; }
      }
      refused := false;
    }
  }

  function Counted(c: Counter, window: int, now: int): Counter {
    var hit := Incr(c, now);
    if hit.count == 1 then Expire(hit, window, now) else hit
  }

  /** The undisturbed pair of commands is a run of two steps or one. */
  lemma CountedIsARun(window: int, w: Window, now: int)
    requires now >= w.clock
    ensures exists steps :: Exec(window, w, steps).Some?
              && Exec(window, w, steps).value.counter == Counted(w.counter, window, now)
  {
    var w1 := Next(window, w, Hits(now));
    var w2 := Next(window, w1, Expires(now));
    if w1.counter.count == 1 {
      assert [Hits(now), Expires(now)][1..] == [Expires(now)];
      assert Exec(window, w1, [Expires(now)]) == Some(w2);
      assert Exec(window, w, [Hits(now), Expires(now)]) == Some(w2);
    } else {
      assert Exec(window, w, [Hits(now)]) == Some(w1);
    }
  }

  // --------------------------------------------------------------- sliding window

  /** The sorted set of admitted times, the key's expiry, and the times of all
      admitted calls, which Redis does not keep. */
  datatype Sliding = Sliding(scores: seq<int>, expiry: Option<int>, clock: int, log: seq<int>)

  const UNUSED := Sliding([], None, 0, [])

  /** What the set holds once an expired key is gone. */
  function Present(s: Sliding, now: int): seq<int> {
    if s.expiry.Some? && s.expiry.value <= now then [] else s.scores
  }

  function After(scores: seq<int>, limit: int): seq<int> {
    if scores == [] then []
    else if scores[|scores| - 1] > limit then After(scores[..|scores| - 1], limit) + [scores[|scores| - 1]]
    else After(scores[..|scores| - 1], limit)
  }

  /** ZREMRANGEBYSCORE up to now - window, then ZCARD. */
  function Look(s: Sliding, window: int, now: int): Sliding {
    Sliding(After(Present(s, now), now - window), if Present(s, now) == [] then None else s.expiry, now, s.log)
  }

  /** ZADD with the time read before looking, then EXPIRE at the time it arrives. */
  function Add(s: Sliding, window: int, now: int, at: int): Sliding {
    Sliding(Present(s, at) + [now], Some(at + window), at, s.log + [now])
  }

  predicate Blocked(s: Sliding, limit: nat, window: int, now: int) { |Look(s, window, now).scores| >= limit }

  /** One undisturbed call of `enforce_sliding_window`. */
  function Call(s: Sliding, limit: nat, window: int, now: int, at: int): Sliding {
    if Blocked(s, limit, window, now) then Look(s, window, now) else Add(Look(s, window, now), window, now, at)
  }

  /** The sorted set of one key, changed in place. */
  class SortedSet {
    var scores: seq<int>
    var expiry: Option<int>
    ghost var clock: int
    ghost var log: seq<int>

    ghost function State(): Sliding
      reads this
    {
      Sliding(scores, expiry, clock, log)
    }

    constructor ()
      ensures State() == UNUSED
    {
      scores, expiry, clock, log := [], None, 0, [];
    }

    /** Redis forgets an expired key. */
    method Forget(now: int)
      modifies this`scores, this`expiry
      ensures scores == Present(old(State()), now)
      ensures scores == [] || expiry == old(expiry)
      ensures scores == [] && old(scores) != [] ==> expiry == None
    {
      if expiry.Some? && expiry.value <= now { scores, expiry := [], None; }
    }

    /** `enforce_sliding_window`: two pipelines, the second only for a call let in. */
    method EnforceSlidingWindow(limit: nat, window: int, now: int, at: int) returns (blocked: bool)
      modifies this
      ensures blocked == Blocked(old(State()), limit, window, now)
      ensures State() == Call(old(State()), limit, window, now, at)
    {
      Forget(now);
      if scores == [] { expiry := None; }
      scores := After(scores, now - window);
      clock := now;
      if |scores| >= limit { return true; }
      Forget(at);
      scores, expiry := scores + [now], Some(at + window);
      clock, log := at, log + [now];
      blocked := false;
    }
  }

  datatype Visit = Visit(now: int, at: int)

  /** Calls one after another, on a clock that never goes back. */
  function Calls(s: Sliding, limit: nat, window: int, visits: seq<Visit>): Option<Sliding>
    decreases |visits|
  {
    if visits == [] then Some(s)
    else if s.clock <= visits[0].now <= visits[0].at then
      Calls(Call(s, limit, window, visits[0].now, visits[0].at), limit, window, visits[1..])
    else None
  }

  /** At this time the set, pruned, is what the log says of the window. */
  predicate ExactAt(s: Sliding, window: int, now: int) {
    After(Present(s, now), now - window) == After(s.log, now - window)
  }

  /** From now on neither pruning nor EXPIRE has taken an entry still inside. */
  ghost predicate Exact(s: Sliding, window: int) {
    && (forall k | 0 <= k < |s.log| :: s.log[k] <= s.clock)
    && (forall now | now >= s.clock :: ExactAt(s, window, now))
  }

  lemma AfterAppend(xs: seq<int>, x: int, a: int)
    ensures After(xs + [x], a) == if x > a then After(xs, a) + [x] else After(xs, a)
  {
    assert (xs + [x])[..|xs|] == xs;
  }

  lemma {:induction false} AfterAfter(xs: seq<int>, a: int, b: int)
    requires a <= b
    ensures After(After(xs, a), b) == After(xs, b)
  {
    if xs != [] {
      var most, x := xs[..|xs| - 1], xs[|xs| - 1];
      AfterAfter(most, a, b);
      AfterAppend(After(most, a), x, b);
    }
  }

  lemma {:induction false} AfterNone(xs: seq<int>, a: int)
    requires forall k | 0 <= k < |xs| :: xs[k] <= a
    ensures After(xs, a) == []
  {
    if xs != [] { AfterNone(xs[..|xs| - 1], a); }
  }

  /** Nothing there at one time, nothing inside later. */
  lemma LookOfNothing(s: Sliding, window: int, now: int, later: int)
    requires now <= later && ExactAt(s, window, now) && Present(s, now) == []
    ensures ExactAt(Look(s, window, now), window, later)
  {
    AfterAfter(s.log, now - window, later - window);
  }

  lemma LookOfSome(s: Sliding, window: int, now: int, later: int)
    requires now <= later && ExactAt(s, window, later) && Present(s, now) != []
    ensures ExactAt(Look(s, window, now), window, later)
  {
    var s' := Look(s, window, now);
    PrunedLater(s, window, now, later);
    assert s'.log == s.log;
  }

  lemma PrunedLater(s: Sliding, window: int, now: int, later: int)
    requires now <= later && Present(s, now) != []
    ensures After(Present(Look(s, window, now), later), later - window) == After(Present(s, later), later - window)
  {
    if s.expiry.Some? && s.expiry.value <= later {
      assert Present(Look(s, window, now), later) == Present(s, later);
    } else {
      AfterAfter(s.scores, now - window, later - window);
    }
  }

  lemma LookKeepsAt(s: Sliding, window: int, now: int, later: int)
    requires now <= later && ExactAt(s, window, now) && ExactAt(s, window, later)
    ensures ExactAt(Look(s, window, now), window, later)
  {
    if Present(s, now) == [] { LookOfNothing(s, window, now, later); } else { LookOfSome(s, window, now, later); }
  }

  lemma LookKeeps(s: Sliding, window: int, now: int)
    requires Exact(s, window) && now >= s.clock
    ensures Exact(Look(s, window, now), window)
    ensures Look(s, window, now).scores == After(s.log, now - window)
  {
    assert ExactAt(s, window, now);
    forall later | later >= now ensures ExactAt(Look(s, window, now), window, later) {
      assert ExactAt(s, window, later);
      LookKeepsAt(s, window, now, later);
    }
  }

  /** While the key lives, the set and the log get the same entry. */
  lemma AddToBoth(s: Sliding, window: int, now: int, at: int, later: int)
    requires now <= at <= later < at + window && ExactAt(s, window, at)
    ensures ExactAt(Add(s, window, now, at), window, later)
  {
    SameInBoth(Present(s, at), s.log, now, at - window, later - window);
  }

  lemma SameInBoth(xs: seq<int>, ys: seq<int>, x: int, a: int, b: int)
    requires a <= b && After(xs, a) == After(ys, a)
    ensures After(xs + [x], b) == After(ys + [x], b)
  {
    SameLater(xs, ys, a, b);
    AfterAppend(xs, x, b);
    AfterAppend(ys, x, b);
  }

  lemma SameLater(xs: seq<int>, ys: seq<int>, a: int, b: int)
    requires a <= b && After(xs, a) == After(ys, a)
    ensures After(xs, b) == After(ys, b)
  {
    AfterAfter(xs, a, b);
    AfterAfter(ys, a, b);
  }

  lemma AddKeepsAt(s: Sliding, window: int, now: int, at: int, later: int)
    requires now <= at <= later && ExactAt(s, window, at)
    requires forall k | 0 <= k < |s.log| :: s.log[k] <= at
    ensures ExactAt(Add(s, window, now, at), window, later)
  {
    if at + window <= later {
      AfterNone(Add(s, window, now, at).log, later - window);
    } else {
      AddToBoth(s, window, now, at, later);
    }
  }

  lemma AddKeeps(s: Sliding, window: int, now: int, at: int)
    requires window > 0 && Exact(s, window) && s.clock <= at && now <= at
    ensures Exact(Add(s, window, now, at), window)
  {
    assert ExactAt(s, window, at);
    forall later | later >= at ensures ExactAt(Add(s, window, now, at), window, later) {
      AddKeepsAt(s, window, now, at, later);
    }
  }

  lemma {:induction false} CallsKeep(s: Sliding, limit: nat, window: int, visits: seq<Visit>)
    requires window > 0 && Exact(s, window) && Calls(s, limit, window, visits).Some?
    ensures Exact(Calls(s, limit, window, visits).value, window)
    decreases |visits|
  {
    if visits != [] {
      var v := visits[0];
      LookKeeps(s, window, v.now);
      if !Blocked(s, limit, window, v.now) { AddKeeps(Look(s, window, v.now), window, v.now, v.at); }
      CallsKeep(Call(s, limit, window, v.now, v.at), limit, window, visits[1..]);
    }
  }

  /** After any sequence of calls the next one is blocked exactly when the limit
      has been admitted in the window that ends now. */
  lemma BlocksExactlyAtTheLimit(limit: nat, window: int, visits: seq<Visit>, now: int)
    requires window > 0 && Calls(UNUSED, limit, window, visits).Some?
    requires now >= Calls(UNUSED, limit, window, visits).value.clock
    ensures var s := Calls(UNUSED, limit, window, visits).value;
            Blocked(s, limit, window, now) <==> |After(s.log, now - window)| >= limit
  {
    CallsKeep(UNUSED, limit, window, visits);
    LookKeeps(Calls(UNUSED, limit, window, visits).value, window, now);
  }

  // ------------------------------------------------------- no more than the limit

  function Within(log: seq<int>, from: int, window: int): nat {
    if log == [] then 0
    else Within(log[..|log| - 1], from, window) + if from < log[|log| - 1] <= from + window then 1 else 0
  }

  lemma {:induction false} AfterShrinks(log: seq<int>, a: int, b: int)
    requires a <= b
    ensures |After(log, b)| <= |After(log, a)|
  {
    if log != [] { AfterShrinks(log[..|log| - 1], a, b); }
  }

  /** Every stretch of the log that a window covers, ending at its newest entry, is
      within the limit. */
  ghost predicate Bounded(log: seq<int>, limit: nat, window: int) {
    forall from :: Within(log, from, window) <= limit
  }

  lemma {:induction false} WithinOld(log: seq<int>, from: int, window: int, now: int)
    requires forall k | 0 <= k < |log| :: log[k] <= now
    requires now <= from + window
    ensures Within(log, from, window) == |After(log, from)|
  {
    if log != [] {
      assert log[|log| - 1] <= now;
      WithinOld(log[..|log| - 1], from, window, now);
    }
  }

  lemma AddIsBounded(s: Sliding, limit: nat, window: int, now: int)
    requires window > 0 && Exact(s, window) && now >= s.clock && Bounded(s.log, limit, window)
    requires !Blocked(s, limit, window, now)
    ensures Bounded(s.log + [now], limit, window)
  {
    LookKeeps(s, window, now);
    assert (s.log + [now])[..|s.log|] == s.log;
    forall from ensures Within(s.log + [now], from, window) <= limit {
      assert Within(s.log, from, window) <= limit;
      if from < now <= from + window {
        WithinOld(s.log, from, window, now);
        AfterShrinks(s.log, now - window, from);
      }
    }
  }

  lemma {:induction false} CallsAreBounded(s: Sliding, limit: nat, window: int, visits: seq<Visit>)
    requires window > 0 && Exact(s, window) && Bounded(s.log, limit, window) && Calls(s, limit, window, visits).Some?
    ensures Bounded(Calls(s, limit, window, visits).value.log, limit, window)
    decreases |visits|
  {
    if visits != [] {
      var v := visits[0];
      LookKeeps(s, window, v.now);
      if !Blocked(s, limit, window, v.now) {
        AddIsBounded(s, limit, window, v.now);
        AddKeeps(Look(s, window, v.now), window, v.now, v.at);
      }
      CallsAreBounded(Call(s, limit, window, v.now, v.at), limit, window, visits[1..]);
    }
  }

  /** Used by one caller after another, the sliding window admits at most the limit
      in any interval of its length, open at one end. */
  lemma SlidingWindowBound(limit: nat, window: int, visits: seq<Visit>, from: int)
    requires window > 0 && Calls(UNUSED, limit, window, visits).Some?
    ensures Within(Calls(UNUSED, limit, window, visits).value.log, from, window) <= limit
  {
    CallsAreBounded(UNUSED, limit, window, visits);
    assert Bounded(Calls(UNUSED, limit, window, visits).value.log, limit, window);
  }

  // -------------------------------------------------------- callers at the same time

  /** The set of one key, and the times of the callers that were let in and have not
      added their entry yet. */
  datatype Race = Race(s: Sliding, pending: seq<int>)

  /** A caller looks at the time it has just read, or one that was let in adds. */
  datatype Move = Looks(now: int) | Adds(i: nat, at: int)

  /** At most k callers are between their look and their add. */
  predicate CanMove(r: Race, m: Move, k: nat) {
    match m
    case Looks(now) => now >= r.s.clock && |r.pending| < k
    case Adds(i, at) => i < |r.pending| && at >= r.s.clock
  }

  function Moved(r: Race, m: Move, limit: nat, window: int): Race
    requires m.Adds? ==> m.i < |r.pending|
  {
    match m
    case Looks(now) =>
      Race(Look(r.s, window, now), if Blocked(r.s, limit, window, now) then r.pending else r.pending + [now])
    case Adds(i, at) =>
      Race(Add(r.s, window, r.pending[i], at), r.pending[..i] + r.pending[i + 1..])
  }

  predicate Leads(r: Race, m: Move, r': Race, k: nat, limit: nat, window: int) {
    CanMove(r, m, k) && r' == Moved(r, m, limit, window)
  }

  const NOBODY := Race(UNUSED, [])

  /** A run of callers, from an unused key. */
  predicate Racing(states: seq<Race>, moves: seq<Move>, k: nat, limit: nat, window: int) {
    && |states| == |moves| + 1
    && states[0] == NOBODY
    && forall i | 0 <= i < |moves| :: Leads(states[i], moves[i], states[i + 1], k, limit, window)
  }

  lemma {:induction false} WithinConcat(a: seq<int>, b: seq<int>, from: int, window: int)
    ensures Within(a + b, from, window) == Within(a, from, window) + Within(b, from, window)
    decreases |b|
  {
    if b == [] {
      assert a + b == a;
    } else {
      WithinConcat(a, b[..|b| - 1], from, window);
      assert (a + b)[..|a + b| - 1] == a + b[..|b| - 1];
    }
  }

  lemma {:induction false} WithinLength(xs: seq<int>, from: int, window: int)
    ensures Within(xs, from, window) <= |xs|
  {
    if xs != [] { WithinLength(xs[..|xs| - 1], from, window); }
  }

  function InRange(x: int, from: int, window: int): nat { if from < x <= from + window then 1 else 0 }

  lemma WithinOne(xs: seq<int>, x: int, from: int, window: int)
    ensures Within(xs + [x], from, window) == Within(xs, from, window) + InRange(x, from, window)
  {
    assert (xs + [x])[..|xs|] == xs;
  }

  lemma WithinTaken(xs: seq<int>, i: nat, from: int, window: int)
    requires i < |xs|
    ensures Within(xs, from, window) == Within(xs[..i] + xs[i + 1..], from, window) + InRange(xs[i], from, window)
  {
    assert xs == xs[..i] + [xs[i]] + xs[i + 1..];
    WithinConcat(xs[..i] + [xs[i]], xs[i + 1..], from, window);
    WithinOne(xs[..i], xs[i], from, window);
    WithinConcat(xs[..i], xs[i + 1..], from, window);
  }

  predicate AtMost(r: Race, bound: nat, from: int, window: int) {
    Within(r.s.log, from, window) + Within(r.pending, from, window) <= bound
  }

  predicate NoneLater(pending: seq<int>, clock: int) {
    forall i | 0 <= i < |pending| :: pending[i] <= clock
  }

  ghost predicate RaceOk(r: Race, k: nat, window: int) {
    Exact(r.s, window) && |r.pending| <= k && NoneLater(r.pending, r.s.clock)
  }

  /** A caller that is let in saw every logged entry of any interval it falls in. */
  lemma LookIsBounded(r: Race, k: nat, limit: nat, window: int, now: int, from: int)
    requires window > 0 && RaceOk(r, k, window) && CanMove(r, Looks(now), k) && limit > 0
    requires AtMost(r, limit + k - 1, from, window)
    ensures AtMost(Moved(r, Looks(now), limit, window), limit + k - 1, from, window)
  {
    LookKeeps(r.s, window, now);
    WithinOne(r.pending, now, from, window);
    WithinLength(r.pending, from, window);
    if from < now <= from + window && !Blocked(r.s, limit, window, now) {
      WithinOld(r.s.log, from, window, now);
      AfterShrinks(r.s.log, now - window, from);
    }
  }

  lemma AddIsCounted(r: Race, bound: nat, limit: nat, window: int, i: nat, at: int, from: int)
    requires i < |r.pending| && AtMost(r, bound, from, window)
    ensures AtMost(Moved(r, Adds(i, at), limit, window), bound, from, window)
  {
    WithinOne(r.s.log, r.pending[i], from, window);
    WithinTaken(r.pending, i, from, window);
  }

  lemma NoneLaterMoves(pending: seq<int>, clock: int, later: int)
    requires NoneLater(pending, clock) && clock <= later
    ensures NoneLater(pending + [later], later)
    ensures forall i | 0 <= i < |pending| :: NoneLater(pending[..i] + pending[i + 1..], later)
  {
  }

  lemma LookKeepsRaceOk(r: Race, k: nat, limit: nat, window: int, now: int)
    requires window > 0 && RaceOk(r, k, window) && CanMove(r, Looks(now), k)
    ensures RaceOk(Moved(r, Looks(now), limit, window), k, window)
  {
    LookKeeps(r.s, window, now);
    NoneLaterMoves(r.pending, r.s.clock, now);
  }

  lemma AddKeepsRaceOk(r: Race, k: nat, limit: nat, window: int, i: nat, at: int)
    requires window > 0 && RaceOk(r, k, window) && CanMove(r, Adds(i, at), k)
    ensures RaceOk(Moved(r, Adds(i, at), limit, window), k, window)
  {
    AddKeeps(r.s, window, r.pending[i], at);
    NoneLaterMoves(r.pending, r.s.clock, at);
  }

  lemma {:induction false} RacingIsBounded(
    states: seq<Race>, moves: seq<Move>, k: nat, limit: nat, window: int, from: int, i: nat)
    requires window > 0 && limit > 0 && k > 0 && Racing(states, moves, k, limit, window) && i <= |moves|
    ensures RaceOk(states[i], k, window) && AtMost(states[i], limit + k - 1, from, window)
  {
    if i > 0 {
      RacingIsBounded(states, moves, k, limit, window, from, i - 1);
      var r, m := states[i - 1], moves[i - 1];
      assert Leads(r, m, states[i], k, limit, window);
      match m {
        case Looks(now) =>
          LookKeepsRaceOk(r, k, limit, window, now);
          LookIsBounded(r, k, limit, window, now, from);
        case Adds(j, at) =>
          AddKeepsRaceOk(r, k, limit, window, j, at);
          AddIsCounted(r, limit + k - 1, limit, window, j, at, from);
      }
    }
  }

  /** With at most k callers between look and add at any time, at most k - 1 more
      than the limit are let in in any interval of the window's length, open at one
      end. */
  lemma ConcurrentBound(states: seq<Race>, moves: seq<Move>, k: nat, limit: nat, window: int, from: int)
    requires window > 0 && limit > 0 && k > 0 && Racing(states, moves, k, limit, window)
    ensures Within(states[|moves|].s.log, from, window) <= limit + k - 1
  {
    RacingIsBounded(states, moves, k, limit, window, from, |moves|);
  }

  function Zeros(n: nat): seq<int> { seq(n, (i: nat) => 0) }

  /** The set after n entries at time 0, with m callers about to add theirs. */
  function Crowd(n: nat, m: nat, window: int): Race {
    Race(if n == 0 then UNUSED else Sliding(Zeros(n), Some(window), 0, Zeros(n)), Zeros(m))
  }

  lemma {:induction false} ZerosCount(n: nat, window: int)
    requires window > 0
    ensures Within(Zeros(n), -1, window) == n && After(Zeros(n), -window) == Zeros(n)
  {
    if n > 0 {
      ZerosCount(n - 1, window);
      assert Zeros(n)[..n - 1] == Zeros(n - 1);
      assert Zeros(n) == Zeros(n - 1) + [0];
    }
  }

  lemma CrowdLooks(n: nat, m: nat, k: nat, limit: nat, window: int)
    requires window > 0 && n < limit && m < k
    ensures Leads(Crowd(n, m, window), Looks(0), Crowd(n, m + 1, window), k, limit, window)
  {
    ZerosCount(n, window);
    assert Zeros(m) + [0] == Zeros(m + 1);
    assert Zeros(0) == [];
  }

  lemma CrowdAdds(n: nat, m: nat, k: nat, limit: nat, window: int)
    requires window > 0 && m > 0
    ensures Leads(Crowd(n, m, window), Adds(0, 0), Crowd(n + 1, m - 1, window), k, limit, window)
  {
    assert Zeros(m)[..0] + Zeros(m)[1..] == Zeros(m - 1);
    assert Zeros(n) + [0] == Zeros(n + 1);
  }

  /** How many have added and how many are about to, after i moves: one after another
      up to one below the limit, then all k look, then all add. */
  function Added(i: nat, k: nat, limit: nat): nat
    requires limit > 0
  {
    if i < 2 * (limit - 1) then i / 2
    else if i < 2 * (limit - 1) + k then limit - 1
    else i - (limit - 1) - k
  }

  function Waiting(i: nat, k: nat, limit: nat): nat
    requires limit > 0 && i <= 2 * (limit - 1) + 2 * k
  {
    if i < 2 * (limit - 1) then i % 2
    else if i < 2 * (limit - 1) + k then i - 2 * (limit - 1)
    else 2 * (limit - 1) + 2 * k - i
  }

  predicate LooksNext(i: nat, k: nat, limit: nat)
    requires limit > 0
  {
    if i < 2 * (limit - 1) then i % 2 == 0 else i < 2 * (limit - 1) + k
  }

  function CrowdAt(i: nat, k: nat, limit: nat, window: int): Race
    requires limit > 0 && i <= 2 * (limit - 1) + 2 * k
  {
    Crowd(Added(i, k, limit), Waiting(i, k, limit), window)
  }

  function MoveAt(i: nat, k: nat, limit: nat): Move
    requires limit > 0
  {
    if LooksNext(i, k, limit) then Looks(0) else Adds(0, 0)
  }

  lemma CrowdCounts(i: nat, k: nat, limit: nat)
    requires limit > 0 && k > 0 && i < 2 * (limit - 1) + 2 * k
    ensures var n, m := Added(i, k, limit), Waiting(i, k, limit);
            if LooksNext(i, k, limit)
            then n < limit && m < k && Added(i + 1, k, limit) == n && Waiting(i + 1, k, limit) == m + 1
            else m > 0 && Added(i + 1, k, limit) == n + 1 && Waiting(i + 1, k, limit) == m - 1
  {
  }

  lemma CrowdStep(n: nat, m: nat, looks: bool, k: nat, limit: nat, window: int)
    requires window > 0 && if looks then n < limit && m < k else m > 0
    ensures Leads(Crowd(n, m, window), if looks then Looks(0) else Adds(0, 0),
                  if looks then Crowd(n, m + 1, window) else Crowd(n + 1, m - 1, window), k, limit, window)
  {
    if looks { CrowdLooks(n, m, k, limit, window); } else { CrowdAdds(n, m, k, limit, window); }
  }

  lemma CrowdStepAt(i: nat, k: nat, limit: nat, window: int)
    requires window > 0 && limit > 0 && k > 0 && i < 2 * (limit - 1) + 2 * k
    ensures Leads(CrowdAt(i, k, limit, window), MoveAt(i, k, limit), CrowdAt(i + 1, k, limit, window), k, limit, window)
  {
    CrowdCounts(i, k, limit);
    CrowdStep(Added(i, k, limit), Waiting(i, k, limit), LooksNext(i, k, limit), k, limit, window);
  }

  lemma CrowdRaces(k: nat, limit: nat, window: int) returns (states: seq<Race>, moves: seq<Move>)
    requires window > 0 && limit > 0 && k > 0
    ensures Racing(states, moves, k, limit, window) && states[|moves|] == Crowd(limit + k - 1, 0, window)
  {
    var n := 2 * (limit - 1) + 2 * k;
    states := seq(n + 1, i requires 0 <= i <= n => CrowdAt(i, k, limit, window));
    moves := seq(n, i requires 0 <= i < n => MoveAt(i, k, limit));
    forall i | 0 <= i < n ensures Leads(states[i], moves[i], states[i + 1], k, limit, window) {
      CrowdStepAt(i, k, limit, window);
    }
    assert Zeros(0) == [];
  }

  /** For every limit and every k that bound is reached, so without a bound on the
      callers there is none on those let in. */
  lemma ConcurrentBoundIsReached(k: nat, limit: nat, window: int) returns (states: seq<Race>, moves: seq<Move>)
    requires window > 0 && limit > 0 && k > 0
    ensures Racing(states, moves, k, limit, window)
    ensures Within(states[|moves|].s.log, -1, window) == limit + k - 1
  {
    states, moves := CrowdRaces(k, limit, window);
    ZerosCount(limit + k - 1, window);
  }
}
