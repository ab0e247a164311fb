/**
 Redis stream ids, as the text Redis hands out ("1700000000000-3") and as the
 pair of numbers it stands for, together with the integer version the client
 sorts by.
 */
module StreamIds {
  import opened Options

  datatype Id = Id(ms: nat, counter: nat)

  /** The smallest id; Redis never assigns it to an entry. */
  const ZERO := Id(0, 0)

  predicate Le(a: Id, b: Id) {
    a.ms < b.ms || (a.ms == b.ms && a.counter <= b.counter)
  }

  predicate Lt(a: Id, b: Id) {
    a.ms < b.ms || (a.ms == b.ms && a.counter < b.counter)
  }

  /** `version_of`: the counter is saturated at 999. */
  function Version(id: Id): nat {
    id.ms * 1000 + if id.counter <= 999 then id.counter else 999
  }

  /** The version never goes backwards, orders ids, and only ties two saturated
      counters of one millisecond. */
  lemma VersionOrdersIds(a: Id, b: Id)
    ensures Le(a, b) ==> Version(a) <= Version(b)
    ensures Version(a) < Version(b) ==> Lt(a, b)
    ensures Lt(a, b) ==>
              (Version(a) == Version(b) <==> a.ms == b.ms && a.counter >= 999)
  {
    if a.ms < b.ms {
      assert Version(a) <= a.ms * 1000 + 999 < (a.ms + 1) * 1000 <= b.ms * 1000 <= Version(b);
    } else if b.ms < a.ms {
      assert Version(b) <= b.ms * 1000 + 999 < (b.ms + 1) * 1000 <= a.ms * 1000 <= Version(a);
    }
  }

  // ------------------------------------------------------------ text form

  predicate IsDigit(c: char) { '0' <= c <= '9' }

  predicate AllDigits(s: string) { forall i | 0 <= i < |s| :: IsDigit(s[i]) }

  function Decimal(n: nat): (s: string)
    ensures s != "" && AllDigits(s) && (s[0] == '0' ==> n == 0)
  {
    var last := [('0' as int + n % 10) as char];
    if n < 10 then last else Decimal(n / 10) + last
  }

  function Value(s: string): nat
    requires AllDigits(s)
  {
    if s == "" then 0
    else Value(s[..|s| - 1]) * 10 + (s[|s| - 1] as int - '0' as int)
  }

  /** `int(text)` on the text Redis writes; anything else is Python's ValueError. */
  function Int(s: string): Option<nat> {
    if s != "" && AllDigits(s) then Some(Value(s)) else None
  }

  /** Index of the first '-', or the length when there is none. */
  function Dash(s: string): (i: nat)
    ensures i <= |s|
    ensures forall j | 0 <= j < i :: s[j] != '-'
    ensures i < |s| ==> s[i] == '-'
  {
    if s == "" || s[0] == '-' then 0
    else 1 + Dash(s[1..])
  }

  /** `partition("-")` followed by `int(ms), int(seq or 0)`. */
  function Parse(s: string): Option<Id> {
    var i := Dash(s);
    var tail := if i < |s| then s[i + 1..] else "";
    match (Int(s[..i]), if tail == "" then Some(0) else Int(tail))
    case (Some(ms), Some(counter)) => Some(Id(ms, counter))
    case _ => None
  }

  function Render(id: Id): string {
    Decimal(id.ms) + "-" + Decimal(id.counter)
  }

  lemma {:induction false} DecimalValue(n: nat)
    ensures Value(Decimal(n)) == n
  {
    var s := Decimal(n);
    if n < 10 {
      assert s[..0] == "";
    } else {
      DecimalValue(n / 10);
      assert s[..|s| - 1] == Decimal(n / 10);
    }
  }

  lemma {:induction false} DashAfterDigits(a: string, b: string)
    requires AllDigits(a)
    ensures Dash(a + "-" + b) == |a|
  {
    var s := a + "-" + b;
    if a != "" {
      assert s[0] == a[0];
      assert s[1..] == a[1..] + "-" + b;
      DashAfterDigits(a[1..], b);
    }
  }

  lemma {:induction false} NoDash(a: string)
    requires AllDigits(a)
    ensures Dash(a) == |a|
  {
    if a != "" { NoDash(a[1..]); }
  }

  lemma MillisecondsAlone(ms: nat)
    ensures Parse(Decimal(ms)) == Parse(Decimal(ms) + "-") == Some(Id(ms, 0))
  {
    var a := Decimal(ms);
    DecimalValue(ms);
    NoDash(a);
    assert a[..|a|] == a;
    DashAfterDigits(a, "");
    assert a + "-" + "" == a + "-" && (a + "-")[..|a|] == a && (a + "-")[|a| + 1..] == "";
  }

  /** Reading back an id that Redis wrote gives the same id, so the text and the
      pair can be used interchangeably. Without a counter, or with an empty one, it is
      the one with counter zero. */
  lemma ParseUndoesRender(id: Id)
    ensures Parse(Render(id)) == Some(id)
    ensures Parse(Decimal(id.ms)) == Parse(Decimal(id.ms) + "-") == Some(Id(id.ms, 0))
  {
    MillisecondsAlone(id.ms);
    var a, b := Decimal(id.ms), Decimal(id.counter);
    DashAfterDigits(a, b);
    DecimalValue(id.ms);
    DecimalValue(id.counter);
    assert Render(id)[..|a|] == a;
    assert Render(id)[|a| + 1..] == b;
  }

  /** `id_le` on texts; `None` is the ValueError raised for a malformed id. */
  function IdLe(a: string, b: string): Option<bool> {
    match (Parse(a), Parse(b))
    case (Some(x), Some(y)) => Some(Le(x, y))
    case _ => None
  }

  /** `id_le` compares the numbers, and agrees with the order of versions as far
      as versions can tell ids apart. */
  lemma IdLeIsNumeric(a: Id, b: Id)
    ensures IdLe(Render(a), Render(b)) == Some(Le(a, b))
    ensures Version(a) < Version(b) ==> IdLe(Render(b), Render(a)) == Some(false)
  {
    ParseUndoesRender(a);
    ParseUndoesRender(b);
    VersionOrdersIds(a, b);
  }
}
