/**
 One tenant's Redis stream under concurrent appends and trims, the replay that
 reads it twice (`EventBus.history`), and the server-sent-events generator that
 joins the replay to the live queue.
 */
module Streams {
  import opened Options
  import opened StreamIds
  import opened Channels

  // ------------------------------------------------------------ data model

  datatype Entry = Entry(id: Id, fields: map<string, string>)

  datatype Event = Event(id: Id, kind: string, channels: set<string>, at: string, data: string, v: nat)

  function Get(fields: map<string, string>, key: string, missing: string): string {
    if key in fields then fields[key] else missing
  }

  /** `parse_entry`; the JSON payload is opaque text. */
  function ParseEntry(e: Entry): Event {
    Event(
      e.id,
      Get(e.fields, "type", "unknown"),
      ParseChannels(Get(e.fields, "ch", "")),
      Get(e.fields, "at", ""),
      if Get(e.fields, "d", "") == "" then "{}" else e.fields["d"],
      Version(e.id))
  }

  /** The fields that `publish` appends; the payload is a JSON text. */
  function Fields(kind: string, channels: seq<string>, at: string, data: string): map<string, string> {
    map["type" := kind, "ch" := Join(channels), "at" := at, "d" := data]
  }

  /** What is published comes back from the stream, its channels as a set exactly if
      each of them is non-empty and free of commas. An entry without fields is an event
      of unknown kind for nobody. */
  lemma PublishedComesBack(id: Id, kind: string, channels: seq<string>, at: string, data: string)
    requires data != ""
    ensures var event := ParseEntry(Entry(id, Fields(kind, channels, at, data)));
            && event == Event(id, kind, event.channels, at, data, Version(id))
            && (event.channels == (set c | c in channels) <==> forall c | c in channels :: Plain(c))
    ensures ParseEntry(Entry(id, map[])) == Event(id, "unknown", {}, "", "{}", Version(id))
  {
    PublishThenParse(channels);
    NothingParses();
  }

  lemma NothingParses()
    ensures ParseChannels("") == {}
  {
    PublishThenParse([]);
  }

  function Parsed(entries: seq<Entry>): (events: seq<Event>)
    ensures |events| == |entries|
    ensures forall i | 0 <= i < |entries| :: events[i] == ParseEntry(entries[i])
  {
    seq(|entries|, i requires 0 <= i < |entries| => ParseEntry(entries[i]))
  }

  /** Every entry ever appended, and how many of the oldest were trimmed away. */
  datatype Stream = Stream(log: seq<Entry>, trimmed: nat) {
    predicate Valid() {
      && trimmed <= |log|
      && Sorted(log)
      && (forall e | e in log :: Lt(ZERO, e.id))
    }

    function Retained(): seq<Entry>
      requires trimmed <= |log|
    {
      log[trimmed..]
    }

    /** Redis keeps at least one entry of a stream that ever had one. */
    predicate HoldsSome() { log != [] ==> trimmed < |log| }
  }

  const EMPTY := Stream([], 0)

  predicate Sorted(log: seq<Entry>) {
    forall i, j | 0 <= i < j < |log| :: Lt(log[i].id, log[j].id)
  }

  /** How many leading entries have an id of at most `id`. */
  function Pos(log: seq<Entry>, id: Id): (p: nat)
    ensures p <= |log|
    ensures forall i | 0 <= i < p :: Le(log[i].id, id)
    ensures p < |log| ==> Lt(id, log[p].id)
  {
    if log == [] || Lt(id, log[0].id) then 0 else 1 + Pos(log[1..], id)
  }

  /** The entries newer than `id`, found by looking at every id. */
  function After(log: seq<Entry>, id: Id): seq<Entry> {
    if log == [] then []
    else (if Lt(id, log[0].id) then [log[0]] else []) + After(log[1..], id)
  }

  function Take<T>(s: seq<T>, n: nat): seq<T> {
    if |s| <= n then s else s[..n]
  }

  lemma {:induction false} AllAfter(log: seq<Entry>, id: Id)
    requires forall i | 0 <= i < |log| :: Lt(id, log[i].id)
    ensures After(log, id) == log
  {
    if log != [] {
      AllAfter(log[1..], id);
      assert [log[0]] + log[1..] == log;
    }
  }

  lemma {:induction false} AfterIsSuffix(log: seq<Entry>, id: Id)
    requires Sorted(log)
    ensures After(log, id) == log[Pos(log, id)..]
  {
    if log == [] {
    } else if Lt(id, log[0].id) {
      forall i | 0 <= i < |log| ensures Lt(id, log[i].id) {
        if i > 0 { assert Lt(log[0].id, log[i].id); }
      }
      AllAfter(log, id);
    } else {
      AfterIsSuffix(log[1..], id);
      assert log[1..][Pos(log[1..], id)..] == log[1 + Pos(log[1..], id)..];
    }
  }

  /** Which index `Pos` is, told from both sides. */
  lemma PosIs(log: seq<Entry>, id: Id, p: nat)
    requires p <= |log|
    requires forall i | 0 <= i < p :: Le(log[i].id, id)
    requires p < |log| ==> Lt(id, log[p].id)
    requires Sorted(log)
    ensures Pos(log, id) == p
  {
    var q := Pos(log, id);
    assert q <= |log|;
  }

  // ---------------------------------------------------- concurrent writers

  /** `XADD … MAXLEN ~ maxlen`: a newer id, and possibly some of the oldest
      entries dropped, never leaving fewer than `maxlen`. */
  predicate XAdd(s: Stream, s': Stream, maxlen: nat) {
    && s.Valid() && s'.Valid()
    && |s'.log| == |s.log| + 1 && s'.log[..|s.log|] == s.log
    && s.trimmed <= s'.trimmed
    && (s'.trimmed == s.trimmed || s'.trimmed + maxlen <= |s'.log|)
  }

  /** What any number of publications does to a stream. */
  predicate Grows(s: Stream, s': Stream) {
    && s.Valid() && s'.Valid()
    && |s.log| <= |s'.log| && s'.log[..|s.log|] == s.log
    && s.trimmed <= s'.trimmed
  }

  predicate Publications(run: seq<Stream>, maxlen: nat) {
    && run != []
    && forall i | 0 <= i < |run| - 1 :: XAdd(run[i], run[i + 1], maxlen)
  }

  lemma {:induction false} PublicationsGrow(run: seq<Stream>, maxlen: nat)
    requires Publications(run, maxlen) && maxlen >= 1
    requires run[0].Valid() && run[0].HoldsSome()
    ensures Grows(run[0], run[|run| - 1])
    ensures run[|run| - 1].HoldsSome()
  {
    if |run| > 1 {
      PublicationsGrow(run[..|run| - 1], maxlen);
      var s, t, u := run[0], run[|run| - 2], run[|run| - 1];
      assert XAdd(t, u, maxlen);
      assert u.log[..|s.log|] == u.log[..|t.log|][..|s.log|] == t.log[..|s.log|];
    }
  }

  // ---------------------------------------------------------------- replay

  /** `XRANGE key (after + COUNT n` on what is retained. */
  function XRangeAfter(s: Stream, after: Id, count: nat): seq<Entry>
    requires s.trimmed <= |s.log|
  {
    Take(After(s.Retained(), after), count)
  }

  /** `XRANGE key - + COUNT 1` */
  function Oldest(s: Stream): seq<Entry>
    requires s.trimmed <= |s.log|
  {
    Take(s.Retained(), 1)
  }

  datatype Replay = Replay(events: seq<Event>, gap: bool)

  /** `history`: the range is read from the stream as it is at `first`, the
      oldest entry from the stream as it is at `second`. */
  function History(first: Stream, second: Stream, after: Id, limit: nat): Replay
    requires first.trimmed <= |first.log| && second.trimmed <= |second.log|
  {
    var raw := XRangeAfter(first, after, limit + 1);
    var oldest := Oldest(second);
    if oldest == [] then Replay([], false)
    else if !Le(oldest[0].id, after) then Replay([], true)
    else if |raw| > limit then Replay([], true)
    else Replay(Parsed(raw), false)
  }

  function Max(a: nat, b: nat): nat { if a < b then b else a }

  lemma {:induction false} AfterOfSuffix(log: seq<Entry>, k: nat, after: Id)
    requires Sorted(log) && k <= |log|
    ensures After(log[k..], after) == log[Max(k, Pos(log, after))..]
    decreases |log| - k
  {
    var p := Pos(log, after);
    if p <= k {
      forall i | 0 <= i < |log| - k ensures Lt(after, log[k..][i].id) {
        if p < k + i { assert Lt(log[p].id, log[k + i].id); }
      }
      AllAfter(log[k..], after);
    } else {
      AfterOfSuffix(log, k + 1, after);
      assert log[k..][1..] == log[k + 1..];
    }
  }

  lemma RetainedAfter(s: Stream, after: Id)
    requires s.Valid()
    ensures After(s.Retained(), after) == s.log[Max(s.trimmed, Pos(s.log, after))..]
  {
    AfterOfSuffix(s.log, s.trimmed, after);
  }

  /** When no gap is reported the replay is every entry ever appended after
      `after`, as of the first read, whatever was appended or trimmed between
      the two reads. */
  lemma HistoryIsSound(first: Stream, second: Stream, after: Id, limit: nat)
    requires Grows(first, second) && second.HoldsSome()
    requires !History(first, second, after, limit).gap
    ensures History(first, second, after, limit).events == Parsed(After(first.log, after))
  {
    if second.log == [] {
      assert first.log == [];
    } else {
      NothingMissing(first, second, after);
    }
  }

  lemma NothingMissing(first: Stream, second: Stream, after: Id)
    requires Grows(first, second) && second.trimmed < |second.log|
    requires Le(Oldest(second)[0].id, after)
    ensures After(first.Retained(), after) == After(first.log, after)
  {
    forall i | 0 <= i < first.trimmed ensures Le(first.log[i].id, after) {
      TrimmedIsOlder(first, second, i);
    }
    assert first.trimmed <= Pos(first.log, after);
    AfterIsSuffix(first.log, after);
    RetainedAfter(first, after);
  }

  lemma TrimmedIsOlder(first: Stream, second: Stream, i: nat)
    requires Grows(first, second) && second.trimmed < |second.log|
    requires i < first.trimmed
    ensures Lt(first.log[i].id, Oldest(second)[0].id)
  {
    assert first.log[i] == second.log[..|first.log|][i] == second.log[i];
    assert Lt(second.log[i].id, second.log[second.trimmed].id);
  }

  /** And it does not cry wolf: a client whose last event is still retained at
      the second read and that is at most `limit` events behind gets a replay;
      further behind it never does. */
  lemma HistoryIsLive(first: Stream, second: Stream, seen: nat, limit: nat)
    requires Grows(first, second)
    requires second.trimmed <= seen < |first.log|
    ensures History(first, second, first.log[seen].id, limit).gap
            <==> |first.log| - seen - 1 > limit
  {
    var after := first.log[seen].id;
    SeenIsRetained(first, second, seen);
    PosIs(first.log, after, seen + 1);
    RetainedAfter(first, after);
    assert |After(first.Retained(), after)| == |first.log| - seen - 1;
  }

  lemma SeenIsRetained(first: Stream, second: Stream, seen: nat)
    requires Grows(first, second) && second.trimmed <= seen < |first.log|
    ensures |Oldest(second)| == 1 && Le(Oldest(second)[0].id, first.log[seen].id)
  {
    assert first.log[seen] == second.log[..|first.log|][seen] == second.log[seen];
    assert second.trimmed < seen ==> Lt(second.log[second.trimmed].id, second.log[seen].id);
  }

  /** The order of the two reads matters: with the oldest entry read first, an
      entry trimmed before the second read is lost without a gap. */
  lemma OldestMustBeReadSecond() returns (first: Stream, second: Stream)
    ensures Grows(first, second) && second.HoldsSome() && first.log != []
    ensures var after := first.log[0].id;
            // oldest taken from `first`, range taken from `second`
            && |Oldest(first)| == 1 && Le(Oldest(first)[0].id, after)
            && |XRangeAfter(second, after, 3)| <= 2
            && XRangeAfter(second, after, 3) != After(first.log, after)
  {
    var e := seq(3, (i: nat) => Entry(Id(i + 1, 0), map[]));
    first, second := Stream(e, 0), Stream(e, 2);
    var after := Id(1, 0);
    RetainedAfter(second, after);
    AfterIsSuffix(first.log, after);
    PosIs(first.log, after, 1);
    assert |After(first.log, after)| == 2;
  }

  // --------------------------------------------------- joining replay and live

  /** The events a subscriber to the channels `mine` wants, in order. */
  function Wanted(events: seq<Event>, mine: set<string>): seq<Event> {
    if events == [] then []
    else if Wants(mine, events[0].channels) then [events[0]] + Wanted(events[1..], mine)
    else Wanted(events[1..], mine)
  }

  lemma WantedCons(event: Event, rest: seq<Event>, mine: set<string>)
    ensures Wanted([event] + rest, mine)
            == if Wants(mine, event.channels) then [event] + Wanted(rest, mine) else Wanted(rest, mine)
  {
    assert ([event] + rest)[1..] == rest;
  }

  lemma {:induction false} WantedConcat(a: seq<Event>, b: seq<Event>, mine: set<string>)
    ensures Wanted(a + b, mine) == Wanted(a, mine) + Wanted(b, mine)
  {
    if a == [] {
      assert a + b == b;
    } else {
      var x, rest := a[0], a[1..];
      WantedConcat(rest, b, mine);
      WantedConsConcat(x, rest, b, mine);
      assert [x] + rest == a && [x] + (rest + b) == a + b;
    }
  }

  lemma WantedConsConcat(x: Event, rest: seq<Event>, b: seq<Event>, mine: set<string>)
    requires Wanted(rest + b, mine) == Wanted(rest, mine) + Wanted(b, mine)
    ensures Wanted([x] + (rest + b), mine) == Wanted([x] + rest, mine) + Wanted(b, mine)
  {
    WantedCons(x, rest + b, mine);
    WantedCons(x, rest, mine);
  }

  /** What the live loop forwards: events newer than the last one sent. */
  function Newer(live: seq<Event>, sent: Option<Id>): seq<Event> {
    if live == [] then []
    else if sent.Some? && Le(live[0].id, sent.value) then Newer(live[1..], sent)
    else [live[0]] + Newer(live[1..], Some(live[0].id))
  }

  lemma NewerCons(event: Event, rest: seq<Event>, sent: Option<Id>)
    ensures Newer([event] + rest, sent)
            == if sent.Some? && Le(event.id, sent.value) then Newer(rest, sent)
               else [event] + Newer(rest, Some(event.id))
  {
    assert ([event] + rest)[1..] == rest;
  }

  function LastId(events: seq<Event>): Option<Id> {
    if events == [] then None else Some(events[|events| - 1].id)
  }

  lemma WantedFrom(events: seq<Event>, i: nat, mine: set<string>)
    requires i < |events|
    ensures Wanted(events[i..], mine)
            == if Wants(mine, events[i].channels) then [events[i]] + Wanted(events[i + 1..], mine)
               else Wanted(events[i + 1..], mine)
  {
    assert events[i..] == [events[i]] + events[i + 1..];
    WantedCons(events[i], events[i + 1..], mine);
  }

  lemma NewerFrom(live: seq<Event>, j: nat, sent: Option<Id>)
    requires j < |live|
    ensures Newer(live[j..], sent)
            == if sent.Some? && Le(live[j].id, sent.value) then Newer(live[j + 1..], sent)
               else [live[j]] + Newer(live[j + 1..], Some(live[j].id))
  {
    assert live[j..] == [live[j]] + live[j + 1..];
    NewerCons(live[j], live[j + 1..], sent);
  }

  lemma MoveOver(a: seq<Event>, x: Event, b: seq<Event>)
    ensures a + ([x] + b) == a + [x] + b
  {
  }

  /** The replay's share of the generator. */
  method SendReplay(mine: set<string>, events: seq<Event>) returns (sent: seq<Event>, maxSent: Option<Id>)
    ensures sent == Wanted(events, mine) && maxSent == LastId(sent)
  {
    sent, maxSent := [], None;
    for i := 0 to |events|
      invariant sent + Wanted(events[i..], mine) == Wanted(events, mine)
      invariant maxSent == LastId(sent)
    {
      var ev := events[i];
      WantedFrom(events, i, mine);
      if Wants(mine, ev.channels) {
        MoveOver(sent, ev, Wanted(events[i + 1..], mine));
        sent, maxSent := sent + [ev], Some(ev.id);
      }
    }
    assert sent + Wanted([], mine) == sent;
  }

  /** The live loop's share. */
  method SendLive(live: seq<Event>, after: Option<Id>) returns (sent: seq<Event>)
    ensures sent == Newer(live, after)
  {
    sent := [];
    var maxSent := after;
    for j := 0 to |live|
      invariant sent + Newer(live[j..], maxSent) == Newer(live, after)
    {
      var ev := live[j];
      NewerFrom(live, j, maxSent);
      if !(maxSent.Some? && Le(ev.id, maxSent.value)) {
        MoveOver(sent, ev, Newer(live[j + 1..], Some(ev.id)));
        maxSent, sent := Some(ev.id), sent + [ev];
      }
    }
    assert sent + Newer([], maxSent) == sent;
  }

  /** The generator: replay first, then the queue. `live` is everything the
      queue yields during the connection. */
  method Generate(mine: set<string>, replay: Replay, live: seq<Event>)
    returns (sent: seq<Event>, resync: bool)
    ensures resync == replay.gap
    ensures var head := if replay.gap then [] else Wanted(replay.events, mine);
            sent == head + Newer(live, LastId(head))
  {
    sent, resync := [], replay.gap;
    var maxSent: Option<Id> := None;
    if !replay.gap {
      sent, maxSent := SendReplay(mine, replay.events);
    }
    var more := SendLive(live, maxSent);
    sent := sent + more;
  }

  /** The wanted events among the entries at positions [lo, hi). */
  function Slice(log: seq<Entry>, lo: nat, hi: nat, mine: set<string>): seq<Event>
    requires hi <= |log|
    decreases hi - lo
  {
    if lo >= hi then []
    else if Wants(mine, ParseEntry(log[lo]).channels) then [ParseEntry(log[lo])] + Slice(log, lo + 1, hi, mine)
    else Slice(log, lo + 1, hi, mine)
  }

  lemma {:induction false} SliceIsWanted(log: seq<Entry>, lo: nat, hi: nat, mine: set<string>)
    requires lo <= hi <= |log|
    ensures Slice(log, lo, hi, mine) == Wanted(Parsed(log[lo..hi]), mine)
    decreases hi - lo
  {
    if lo < hi {
      SliceIsWanted(log, lo + 1, hi, mine);
      assert Parsed(log[lo..hi])[1..] == Parsed(log[lo + 1..hi]);
    }
  }

  lemma ConsConcat(x: Event, a: seq<Event>, b: seq<Event>)
    ensures [x] + (a + b) == [x] + a + b
  {
  }

  lemma {:induction false} SliceSplit(log: seq<Entry>, lo: nat, mid: nat, hi: nat, mine: set<string>)
    requires lo <= mid <= hi <= |log|
    ensures Slice(log, lo, hi, mine) == Slice(log, lo, mid, mine) + Slice(log, mid, hi, mine)
    decreases mid - lo
  {
    if lo < mid {
      SliceSplit(log, lo + 1, mid, hi, mine);
      ConsConcat(ParseEntry(log[lo]), Slice(log, lo + 1, mid, mine), Slice(log, mid, hi, mine));
    }
  }

  lemma LastOfCons(event: Event, rest: seq<Event>)
    requires rest != []
    ensures LastId([event] + rest) == LastId(rest)
  {
  }

  /** Where the last wanted event of a slice sits. */
  lemma {:induction false} LastWanted(log: seq<Entry>, lo: nat, hi: nat, mine: set<string>) returns (k: nat)
    requires lo <= hi <= |log| && Slice(log, lo, hi, mine) != []
    ensures lo <= k < hi && LastId(Slice(log, lo, hi, mine)) == Some(log[k].id)
    ensures Slice(log, k + 1, hi, mine) == []
    decreases hi - lo
  {
    if Slice(log, lo + 1, hi, mine) == [] {
      k := lo;
    } else {
      k := LastWanted(log, lo + 1, hi, mine);
      LastOfCons(ParseEntry(log[lo]), Slice(log, lo + 1, hi, mine));
    }
  }

  /** One entry of the queue, with the rest. */
  lemma NewerStep(log: seq<Entry>, a: nat, b: nat, sent: Id, mine: set<string>)
    requires a < b <= |log|
    ensures var rest := Slice(log, a + 1, b, mine);
            Newer(Slice(log, a, b, mine), Some(sent)) ==
              if !Wants(mine, ParseEntry(log[a]).channels) || Le(log[a].id, sent) then Newer(rest, Some(sent))
              else [ParseEntry(log[a])] + Newer(rest, Some(log[a].id))
  {
    if Wants(mine, ParseEntry(log[a]).channels) {
      NewerCons(ParseEntry(log[a]), Slice(log, a + 1, b, mine), Some(sent));
    }
  }

  lemma {:induction false} NewerAbove(log: seq<Entry>, a: nat, b: nat, k: nat, mine: set<string>)
    requires Sorted(log) && k < a <= b <= |log|
    ensures Newer(Slice(log, a, b, mine), Some(log[k].id)) == Slice(log, a, b, mine)
    decreases b - a
  {
    if a < b {
      assert Lt(log[k].id, log[a].id);
      NewerStep(log, a, b, log[k].id, mine);
      NewerAbove(log, a + 1, b, if Wants(mine, ParseEntry(log[a]).channels) then a else k, mine);
    }
  }

  /** Skipping what was already sent is dropping a prefix of the stream. */
  lemma {:induction false} NewerIsSuffix(log: seq<Entry>, a: nat, b: nat, k: nat, mine: set<string>)
    requires Sorted(log) && a <= b <= |log| && k < |log|
    ensures Newer(Slice(log, a, b, mine), Some(log[k].id))
            == Slice(log, if a <= k then k + 1 else a, b, mine)
    decreases b - a
  {
    if k < a {
      NewerAbove(log, a, b, k, mine);
    } else if a < b {
      assert Le(log[a].id, log[k].id);
      NewerStep(log, a, b, log[k].id, mine);
      NewerIsSuffix(log, a + 1, b, k, mine);
    }
  }

  lemma NewerFromNothing(log: seq<Entry>, a: nat, b: nat, mine: set<string>)
    requires Sorted(log) && a <= b <= |log|
    ensures Newer(Slice(log, a, b, mine), None) == Slice(log, a, b, mine)
    decreases b - a
  {
    if a < b {
      NewerFromNothing(log, a + 1, b, mine);
      NewerIsSuffix(log, a + 1, b, a, mine);
      NewerCons(ParseEntry(log[a]), Slice(log, a + 1, b, mine), None);
    }
  }

  lemma EmptyInside(log: seq<Entry>, lo: nat, hi: nat, x: nat, y: nat, mine: set<string>)
    requires lo <= x && y <= hi <= |log| && Slice(log, lo, hi, mine) == []
    ensures Slice(log, x, y, mine) == []
  {
    if x < y {
      SliceSplit(log, lo, x, hi, mine);
      SliceSplit(log, x, y, hi, mine);
    }
  }

  /** Nothing wanted lies between two points, so a slice may start at either. */
  lemma SkipUnwanted(log: seq<Entry>, lo: nat, from: nat, to: nat, b: nat, mine: set<string>)
    requires lo <= from && to <= |log| && b <= |log| && from <= to && Slice(log, lo, to, mine) == []
    ensures Slice(log, from, b, mine) == Slice(log, to, b, mine)
  {
    if to < b {
      SliceSplit(log, from, to, b, mine);
      EmptyInside(log, lo, to, from, to, mine);
    } else {
      EmptyInside(log, lo, to, from, b, mine);
    }
  }

  /** What the live loop adds when the replay already sent something: of a queue
      that starts before the replay ends, what came after it, and all of one that
      starts later. */
  lemma AddedAfterReplay(log: seq<Entry>, seen: nat, read: nat, a: nat, b: nat, mine: set<string>)
    requires Sorted(log) && seen <= read <= |log| && a <= b <= |log|
    requires Slice(log, seen, read, mine) != []
    ensures Newer(Slice(log, a, b, mine), LastId(Slice(log, seen, read, mine)))
            == Slice(log, if a <= read then read else a, b, mine)
  {
    var k := LastWanted(log, seen, read, mine);
    NewerIsSuffix(log, a, b, k, mine);
    if a <= read { SkipToRead(log, k, read, a, b, mine); }
  }

  lemma SkipToRead(log: seq<Entry>, k: nat, read: nat, a: nat, b: nat, mine: set<string>)
    requires k < read <= |log| && a <= read && b <= |log| && Slice(log, k + 1, read, mine) == []
    ensures Slice(log, if a <= k then k + 1 else a, b, mine) == Slice(log, read, b, mine)
  {
    SkipUnwanted(log, k + 1, if a <= k then k + 1 else a, read, b, mine);
  }

  lemma UnwantedTail(log: seq<Entry>, seen: nat, read: nat, a: nat, b: nat, mine: set<string>)
    requires seen <= b <= read <= |log| && a <= b && Slice(log, seen, read, mine) == []
    ensures Slice(log, a, b, mine) == Slice(log, a, seen, mine)
  {
    if a <= seen {
      SliceSplit(log, a, seen, b, mine);
      EmptyInside(log, seen, read, seen, b, mine);
      assert Slice(log, a, seen, mine) + [] == Slice(log, a, seen, mine);
    } else {
      EmptyInside(log, seen, read, a, b, mine);
    }
  }

  /** The queue's own share of what came after `seen`, when the replay had
      nothing wanted to send. */
  lemma QueueAloneCovers(log: seq<Entry>, seen: nat, read: nat, a: nat, b: nat, mine: set<string>)
    requires seen <= read <= |log| && a <= b <= |log| && a <= read
    requires Slice(log, seen, read, mine) == []
    ensures Slice(log, a, b, mine)
            == Slice(log, a, if b <= seen then b else seen, mine) + Slice(log, read, b, mine)
  {
    var upTo := if b <= seen then b else seen;
    if read < b {
      SliceSplit(log, a, read, b, mine);
      UnwantedTail(log, seen, read, a, read, mine);
    } else if seen < b {
      UnwantedTail(log, seen, read, a, b, mine);
      assert Slice(log, a, upTo, mine) + [] == Slice(log, a, upTo, mine);
    } else {
      assert Slice(log, a, upTo, mine) + [] == Slice(log, a, upTo, mine);
    }
  }

  /** What the client is sent when the queue starts before the replay ends. */
  lemma EarlyQueue(log: seq<Entry>, seen: nat, read: nat, a: nat, b: nat, mine: set<string>)
    requires Sorted(log) && seen <= read <= |log| && a <= b <= |log| && a <= read
    ensures var head := Slice(log, seen, read, mine);
            head + Newer(Slice(log, a, b, mine), LastId(head))
            == if head != [] then head + Slice(log, read, b, mine)
               else Slice(log, a, if b <= seen then b else seen, mine) + Slice(log, read, b, mine)
  {
    if Slice(log, seen, read, mine) != [] {
      AddedAfterReplay(log, seen, read, a, b, mine);
    } else {
      NewerFromNothing(log, a, b, mine);
      QueueAloneCovers(log, seen, read, a, b, mine);
    }
  }

  /** And when it starts later. */
  lemma LateQueue(log: seq<Entry>, seen: nat, read: nat, a: nat, b: nat, mine: set<string>)
    requires Sorted(log) && seen <= read < a <= b <= |log|
    ensures var head := Slice(log, seen, read, mine);
            head + Newer(Slice(log, a, b, mine), LastId(head)) == head + Slice(log, a, b, mine)
  {
    if Slice(log, seen, read, mine) != [] {
      AddedAfterReplay(log, seen, read, a, b, mine);
    } else {
      NewerFromNothing(log, a, b, mine);
    }
  }

  /** Leaving a piece out of the middle changes the whole unless it is empty. */
  lemma MiddleMatters(x: seq<Event>, y: seq<Event>, z: seq<Event>)
    ensures x + z == x + (y + z) <==> y == []
  {
    if y != [] { assert |x + z| < |x + (y + z)|; }
  }

  /** What the reconnecting client receives. `seen` is the position just after
      its last event, `read` the length of the stream at the replay, and the
      queue carries positions [a, b) of the stream. The client receives every
      wanted event after the one it had, once and in order, exactly when the
      replay sent something or the queue holds nothing from before `seen`, and
      nothing wanted lies between the end of the replay and the queue. */
  lemma ReconnectIsExactlyOnce(log: seq<Entry>, seen: nat, read: nat, a: nat, b: nat, mine: set<string>)
    requires Sorted(log) && seen <= read <= |log| && a <= b <= |log|
    ensures var head := Slice(log, seen, read, mine);
            var end := if b <= read then read else b;
            head + Newer(Slice(log, a, b, mine), LastId(head)) == Slice(log, seen, end, mine)
            <==> && (head != [] || Slice(log, a, if b <= seen then b else seen, mine) == [])
                 && Slice(log, read, a, mine) == []
  {
    var head := Slice(log, seen, read, mine);
    if a <= read {
      EarlyQueue(log, seen, read, a, b, mine);
      if read < b { SliceSplit(log, seen, read, b, mine); }
      MiddleMatters([], Slice(log, a, if b <= seen then b else seen, mine), Slice(log, read, b, mine));
    } else {
      LateQueue(log, seen, read, a, b, mine);
      SliceSplit(log, seen, read, b, mine);
      SliceSplit(log, read, a, b, mine);
      MiddleMatters(head, Slice(log, read, a, mine), Slice(log, a, b, mine));
    }
  }
}
