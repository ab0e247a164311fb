/**
 The single place where stock changes: movements and adjustments with their
 ledger. Quantities are whole thousandths (NUMERIC(12,3) times 1000).
 */
module Stock {
  import opened Options

  type Item = int

  datatype Error = BadQuantity | BadType | ZeroDelta | NoSuchItem | Insufficient(item: Item)

  /** A row of `inventory_movements`: an adjustment keeps only its magnitude. */
  datatype Row = Row(item: Item, kind: string, quantity: int)

  /** `moved[j]` is what row j did to the stock of its item; the table has no such column. */
  datatype Ledger = Ledger(stock: map<Item, int>, rows: seq<Row>, moved: seq<int>)

  datatype Call =
    | Move(item: Item, kind: string, quantity: int, allowNegative: bool)
    | Adjust(item: Item, delta: int)

  function Delta(call: Call): int {
    match call
    case Move(_, kind, quantity, _) => if kind == "in" then quantity else -quantity
    case Adjust(_, delta) => delta
  }

  /** Why a call is rejected, in the order the source checks. */
  function Refusal(stock: map<Item, int>, call: Call): Option<Error> {
    if call.Move? && call.quantity <= 0 then Some(BadQuantity)
    else if call.Move? && call.kind !in {"in", "out"} then Some(BadType)
    else if call.Adjust? && call.delta == 0 then Some(ZeroDelta)
    else if call.item !in stock then Some(NoSuchItem)
    else if stock[call.item] + Delta(call) < 0 && !(call.Move? && call.allowNegative) then Some(Insufficient(call.item))
    else None
  }

  function RowOf(call: Call): Row {
    match call
    case Move(item, kind, quantity, _) => Row(item, kind, quantity)
    case Adjust(item, delta) => Row(item, "adjustment", if delta < 0 then -delta else delta)
  }

  function Do(l: Ledger, call: Call): Ledger {
    if Refusal(l.stock, call).Some? then l
    else Ledger(l.stock[call.item := l.stock[call.item] + Delta(call)], l.rows + [RowOf(call)], l.moved + [Delta(call)])
  }

  function Run(l: Ledger, calls: seq<Call>): Ledger
    decreases |calls|
  {
    if calls == [] then l else Run(Do(l, calls[0]), calls[1..])
  }

  // ------------------------------------------------------------ the component

  class Kardex {
    var stock: map<Item, int>
    var movements: seq<Row>
    ghost var moved: seq<int>

    ghost function State(): Ledger
      reads this
    {
      Ledger(stock, movements, moved)
    }

    constructor (initial: map<Item, int>)
      ensures State() == Ledger(initial, [], [])
    {
      stock, movements, moved := initial, [], [];
    }

    /** `record_movement` */
    method RecordMovement(item: Item, kind: string, quantity: int, allowNegative: bool) returns (error: Option<Error>)
      modifies this
      ensures var call := Move(item, kind, quantity, allowNegative);
              error == Refusal(old(stock), call) && State() == Do(old(State()), call)
      ensures error.None?
              <==> && quantity > 0 && kind in {"in", "out"} && item in old(stock)
                   && (allowNegative || old(stock)[item] + (if kind == "in" then quantity else -quantity) >= 0)
      ensures error.None? ==>
                && stock == old(stock)[item := old(stock)[item] + (if kind == "in" then quantity else -quantity)]
                && movements == old(movements) + [Row(item, kind, quantity)]
      ensures error.Some? ==> stock == old(stock) && movements == old(movements)
    {
      if quantity <= 0 { return Some(BadQuantity); }
      if kind != "in" && kind != "out" { return Some(BadType); }
      if item !in stock { return Some(NoSuchItem); }
      var delta := if kind == "in" then quantity else -quantity;
      var newStock := stock[item] + delta;
      if newStock < 0 && !allowNegative { return Some(Insufficient(item)); }
      stock := stock[item := newStock];
      movements := movements + [Row(item, kind, quantity)];
      moved := moved + [delta];
      error := None;
    }

    /** `apply_adjustment` */
    method ApplyAdjustment(item: Item, signedDelta: int) returns (error: Option<Error>)
      modifies this
      ensures error == Refusal(old(stock), Adjust(item, signedDelta))
      ensures State() == Do(old(State()), Adjust(item, signedDelta))
      ensures error.None? <==> signedDelta != 0 && item in old(stock) && old(stock)[item] + signedDelta >= 0
      ensures error.None? ==>
                && stock == old(stock)[item := old(stock)[item] + signedDelta]
                && movements
                   == old(movements) + [Row(item, "adjustment", if signedDelta < 0 then -signedDelta else signedDelta)]
      ensures error.Some? ==> stock == old(stock) && movements == old(movements)
    {
      if signedDelta == 0 { return Some(ZeroDelta); }
      if item !in stock { return Some(NoSuchItem); }
      var newStock := stock[item] + signedDelta;
      if newStock < 0 { return Some(Insufficient(item)); }
      stock := stock[item := newStock];
      movements := movements + [Row(item, "adjustment", if signedDelta < 0 then -signedDelta else signedDelta)];
      moved := moved + [signedDelta];
      error := None;
    }

    /** The loop of `deduct_order_item`, `deduct_sale` and `reverse_order_item`. It
        stops at the first refusal, whose transaction is then rolled back. */
    method ApplyLines(lines: seq<Line>, kind: string) returns (error: Option<Error>)
      modifies this
      ensures error == FirstRefusal(old(stock), lines, kind)
      ensures error.None? ==> State() == Run(old(State()), Calls(lines, kind))
      ensures error.None? ==> stock == Applied(old(stock), lines, kind)
    {
      for n := 0 to |lines|
        invariant FirstRefusal(old(stock), lines, kind) == FirstRefusal(stock, lines[n..], kind)
        invariant Run(State(), Calls(lines[n..], kind)) == Run(old(State()), Calls(lines, kind))
        invariant FirstRefusal(old(stock), lines, kind).None? ==>
                    Applied(stock, lines[n..], kind) == Applied(old(stock), lines, kind)
      {
        ghost var before := State();
        CallsTail(lines[n..], kind);
        assert lines[n..][0] == lines[n] && lines[n..][1..] == lines[n + 1..];
        error := RecordMovement(lines[n].item, kind, lines[n].quantity, false);
        if error.Some? { return; }
      }
      error := None;
    }
  }

  // ----------------------------------------------------- lines taken one by one

  /** What one line of a plan takes (`ConsumptionLine` without its source). */
  datatype Line = Line(item: Item, quantity: int)

  function Calls(lines: seq<Line>, kind: string): seq<Call> {
    seq(|lines|, i requires 0 <= i < |lines| => Move(lines[i].item, kind, lines[i].quantity, false))
  }

  lemma CallsTail(lines: seq<Line>, kind: string)
    requires lines != []
    ensures Calls(lines, kind) == [Move(lines[0].item, kind, lines[0].quantity, false)] + Calls(lines[1..], kind)
  {
  }

  function FirstRefusal(stock: map<Item, int>, lines: seq<Line>, kind: string): Option<Error> {
    if lines == [] then None
    else
      var call := Move(lines[0].item, kind, lines[0].quantity, false);
      var error := Refusal(stock, call);
      if error.Some? then error
      else FirstRefusal(stock[call.item := stock[call.item] + Delta(call)], lines[1..], kind)
  }

  function Applied(stock: map<Item, int>, lines: seq<Line>, kind: string): map<Item, int>
    requires FirstRefusal(stock, lines, kind).None?
  {
    if lines == [] then stock
    else
      var call := Move(lines[0].item, kind, lines[0].quantity, false);
      Applied(stock[call.item := stock[call.item] + Delta(call)], lines[1..], kind)
  }

  lemma {:induction false} RefusalConcat(stock: map<Item, int>, a: seq<Line>, b: seq<Line>, kind: string)
    ensures FirstRefusal(stock, a, kind).Some? ==> FirstRefusal(stock, a + b, kind) == FirstRefusal(stock, a, kind)
    ensures FirstRefusal(stock, a, kind).None? ==>
              FirstRefusal(stock, a + b, kind) == FirstRefusal(Applied(stock, a, kind), b, kind)
    ensures FirstRefusal(stock, a + b, kind).None? ==>
              Applied(stock, a + b, kind) == Applied(Applied(stock, a, kind), b, kind)
    decreases |a|
  {
    if a == [] {
      assert a + b == b;
    } else {
      assert (a + b)[1..] == a[1..] + b;
      var call := Move(a[0].item, kind, a[0].quantity, false);
      if Refusal(stock, call).None? {
        RefusalConcat(stock[call.item := stock[call.item] + Delta(call)], a[1..], b, kind);
      }
    }
  }

  function Total(lines: seq<Line>, item: Item): int {
    if lines == [] then 0
    else (if lines[0].item == item then lines[0].quantity else 0) + Total(lines[1..], item)
  }

  /** Nothing to complain about when each total is compared once with the stock. */
  predicate Fits(stock: map<Item, int>, lines: seq<Line>) {
    forall k | 0 <= k < |lines| ::
      lines[k].quantity > 0 && lines[k].item in stock && Total(lines, lines[k].item) <= stock[lines[k].item]
  }

  lemma {:induction false} TotalIsNotNegative(lines: seq<Line>, item: Item)
    requires forall k | 0 <= k < |lines| :: lines[k].quantity > 0
    ensures Total(lines, item) >= 0
    ensures forall k | 0 <= k < |lines| && lines[k].item == item :: Total(lines, item) >= lines[k].quantity
  {
    if lines != [] {
      TotalIsNotNegative(lines[1..], item);
      forall k | 0 <= k < |lines| && lines[k].item == item ensures Total(lines, item) >= lines[k].quantity {
        if k > 0 { assert lines[k] == lines[1..][k - 1]; }
      }
    }
  }

  /** Taking lines out one by one succeeds exactly when the aggregate fits, and
      then leaves the stock less the aggregate. */
  lemma {:induction false} OutsSucceedIff(stock: map<Item, int>, lines: seq<Line>)
    ensures FirstRefusal(stock, lines, "out").None? <==> Fits(stock, lines)
    ensures Fits(stock, lines) ==>
              var after := Applied(stock, lines, "out");
              after.Keys == stock.Keys && forall i | i in stock :: after[i] == stock[i] - Total(lines, i)
  {
    if lines != [] {
      var first, rest := lines[0], lines[1..];
      if Refusal(stock, Move(first.item, "out", first.quantity, false)).None? {
        var less := stock[first.item := stock[first.item] - first.quantity];
        OutsSucceedIff(less, rest);
        FitsStep(stock, lines);
      } else if Fits(stock, lines) {
        FirstFits(stock, lines);
      }
    }
  }

  lemma FirstFits(stock: map<Item, int>, lines: seq<Line>)
    requires lines != [] && Fits(stock, lines)
    ensures Refusal(stock, Move(lines[0].item, "out", lines[0].quantity, false)).None?
  {
    TotalIsNotNegative(lines, lines[0].item);
  }

  lemma FitsStep(stock: map<Item, int>, lines: seq<Line>)
    requires lines != [] && Refusal(stock, Move(lines[0].item, "out", lines[0].quantity, false)).None?
    ensures Fits(stock, lines) <==> Fits(stock[lines[0].item := stock[lines[0].item] - lines[0].quantity], lines[1..])
  {
    var first, rest := lines[0], lines[1..];
    var less := stock[first.item := stock[first.item] - first.quantity];
    if Fits(stock, lines) {
      forall k | 0 <= k < |rest|
        ensures rest[k].quantity > 0 && rest[k].item in less && Total(rest, rest[k].item) <= less[rest[k].item]
      {
        assert rest[k] == lines[k + 1];
      }
    }
    if Fits(less, rest) {
      forall k | 0 <= k < |lines|
        ensures lines[k].quantity > 0 && lines[k].item in stock && Total(lines, lines[k].item) <= stock[lines[k].item]
      {
        if k > 0 {
          assert lines[k] == rest[k - 1];
        } else if forall j | 0 <= j < |rest| :: rest[j].item != first.item {
          TotalOfAbsent(rest, first.item);
        } else {
          var j :| 0 <= j < |rest| && rest[j].item == first.item;
        }
      }
    }
  }

  lemma {:induction false} TotalOfAbsent(lines: seq<Line>, item: Item)
    requires forall k | 0 <= k < |lines| :: lines[k].item != item
    ensures Total(lines, item) == 0
  {
    if lines != [] { TotalOfAbsent(lines[1..], item); }
  }

  // ------------------------------------------------------ any order of lines

  lemma {:induction false} TotalConcat(a: seq<Line>, b: seq<Line>, item: Item)
    ensures Total(a + b, item) == Total(a, item) + Total(b, item)
  {
    if a == [] {
      assert a + b == b;
    } else {
      assert (a + b)[1..] == a[1..] + b;
      TotalConcat(a[1..], b, item);
    }
  }

  function Without<T>(xs: seq<T>, k: nat): seq<T>
    requires k < |xs|
  {
    xs[..k] + xs[k + 1..]
  }

  lemma MultisetWithout<T>(xs: seq<T>, k: nat)
    requires k < |xs|
    ensures multiset(Without(xs, k)) == multiset(xs) - multiset{xs[k]}
  {
    assert xs == xs[..k] + [xs[k]] + xs[k + 1..];
  }

  lemma TotalWithout(lines: seq<Line>, k: nat, item: Item)
    requires k < |lines|
    ensures Total(lines, item) == Total([lines[k]], item) + Total(Without(lines, k), item)
  {
    TotalConcat(lines[..k], [lines[k]] + lines[k + 1..], item);
    TotalConcat([lines[k]], lines[k + 1..], item);
    TotalConcat(lines[..k], lines[k + 1..], item);
    assert lines == lines[..k] + ([lines[k]] + lines[k + 1..]);
  }

  lemma {:induction false} TotalOfSame(a: seq<Line>, b: seq<Line>, item: Item)
    requires multiset(a) == multiset(b)
    ensures Total(a, item) == Total(b, item)
    decreases |a|
  {
    assert |a| == |multiset(a)| == |multiset(b)| == |b|;
    if a != [] {
      assert a[0] in multiset(b);
      var k :| 0 <= k < |b| && b[k] == a[0];
      MultisetWithout(a, 0);
      MultisetWithout(b, k);
      TotalWithout(a, 0, item);
      TotalWithout(b, k, item);
      TotalOfSame(Without(a, 0), Without(b, k), item);
    }
  }

  /** The order in which lines are taken out decides neither success nor the result. */
  lemma OrderIsIrrelevant(stock: map<Item, int>, a: seq<Line>, b: seq<Line>)
    requires multiset(a) == multiset(b)
    ensures FirstRefusal(stock, a, "out").None? <==> FirstRefusal(stock, b, "out").None?
    ensures FirstRefusal(stock, a, "out").None? ==> Applied(stock, a, "out") == Applied(stock, b, "out")
  {
    OutsSucceedIff(stock, a);
    OutsSucceedIff(stock, b);
    if Fits(stock, a) { FitsAnyOrder(stock, a, b); }
    if Fits(stock, b) { FitsAnyOrder(stock, b, a); }
    if Fits(stock, a) && Fits(stock, b) {
      var first, second := Applied(stock, a, "out"), Applied(stock, b, "out");
      forall i | i in first ensures first[i] == second[i] { TotalOfSame(a, b, i); }
      assert first == second;
    }
  }

  lemma FitsAnyOrder(stock: map<Item, int>, a: seq<Line>, b: seq<Line>)
    requires multiset(a) == multiset(b) && Fits(stock, a)
    ensures Fits(stock, b)
  {
    forall k | 0 <= k < |b| ensures b[k].quantity > 0 && b[k].item in stock && Total(b, b[k].item) <= stock[b[k].item] {
      assert b[k] in multiset(b);
      var j :| 0 <= j < |a| && a[j] == b[k];
      TotalOfSame(a, b, b[k].item);
    }
  }

  // ------------------------------------------------------ advance availability

  /** `check_availability` over an aggregated requirement, its keys in some order. */
  method CheckAvailability(stock: map<Item, int>, required: map<Item, int>, keys: seq<Item>)
    returns (short: Option<Item>)
    requires forall k | 0 <= k < |keys| :: keys[k] in required
    requires forall i | i in required :: i in keys
    ensures short.None? <==> Available(stock, required)
    ensures short.Some? ==> Lacks(stock, required, short.value)
  {
    for n := 0 to |keys|
      invariant forall k | 0 <= k < n :: !Lacks(stock, required, keys[k])
    {
      var i, need := keys[n], required[keys[n]];
      if need <= 0 || i !in stock { continue; }
      if stock[i] < need { return Some(i); }
    }
    short := None;
  }

  predicate Lacks(stock: map<Item, int>, required: map<Item, int>, i: Item) {
    i in required && required[i] > 0 && i in stock && stock[i] < required[i]
  }

  predicate Available(stock: map<Item, int>, required: map<Item, int>) {
    forall i | i in required :: !Lacks(stock, required, i)
  }

  /** The aggregate of a list of lines. */
  predicate Aggregates(required: map<Item, int>, lines: seq<Line>) {
    && (forall k | 0 <= k < |lines| :: lines[k].item in required)
    && (forall i | i in required :: required[i] == Total(lines, i))
  }

  /** The advance check passes exactly when taking the lines out would succeed,
      provided the items exist and the quantities are positive; missing items are
      the one thing it does not see. */
  lemma CheckPredictsDeduction(stock: map<Item, int>, required: map<Item, int>, lines: seq<Line>)
    requires Aggregates(required, lines)
    ensures FirstRefusal(stock, lines, "out").None? <==>
              && Available(stock, required)
              && forall k | 0 <= k < |lines| :: lines[k].quantity > 0 && lines[k].item in stock
  {
    OutsSucceedIff(stock, lines);
    if Fits(stock, lines) {
      forall i | i in required ensures !Lacks(stock, required, i) {
        if forall k | 0 <= k < |lines| :: lines[k].item != i {
          TotalOfAbsent(lines, i);
        } else {
          var k :| 0 <= k < |lines| && lines[k].item == i;
        }
      }
    }
    if Available(stock, required) && forall k | 0 <= k < |lines| :: lines[k].quantity > 0 && lines[k].item in stock {
      forall k | 0 <= k < |lines| ensures Total(lines, lines[k].item) <= stock[lines[k].item] {
        TotalIsNotNegative(lines, lines[k].item);
        assert !Lacks(stock, required, lines[k].item);
      }
    }
  }

  // ---------------------------------------------------------- the ledger agrees

  /** What the first n rows say about an item. */
  function Booked(l: Ledger, item: Item, n: nat): int
    requires n <= |l.rows| == |l.moved|
  {
    if n == 0 then 0
    else Booked(l, item, n - 1) + (if l.rows[n - 1].item == item then l.moved[n - 1] else 0)
  }

  /** Every row can be stored (quantity above zero, known type) and says by its
      type and magnitude what was done. */
  predicate RowOk(row: Row, moved: int) {
    && row.quantity > 0
    && (row.kind == "in" ==> moved == row.quantity)
    && (row.kind == "out" ==> moved == -row.quantity)
    && (row.kind == "adjustment" ==> moved == row.quantity || moved == -row.quantity)
    && row.kind in {"in", "out", "adjustment"}
  }

  predicate Balanced(initial: map<Item, int>, l: Ledger) {
    && |l.rows| == |l.moved|
    && l.stock.Keys == initial.Keys
    && (forall j | 0 <= j < |l.rows| :: RowOk(l.rows[j], l.moved[j]))
    && (forall i | i in initial :: l.stock[i] == initial[i] + Booked(l, i, |l.rows|))
  }

  lemma {:induction false} BookedGrows(l: Ledger, row: Row, moved: int, stock: map<Item, int>, item: Item, n: nat)
    requires n <= |l.rows| == |l.moved|
    ensures Booked(Ledger(stock, l.rows + [row], l.moved + [moved]), item, n) == Booked(l, item, n)
  {
    if n > 0 { BookedGrows(l, row, moved, stock, item, n - 1); }
  }

  lemma DoBalances(initial: map<Item, int>, l: Ledger, call: Call)
    requires Balanced(initial, l)
    ensures Balanced(initial, Do(l, call))
  {
    if Refusal(l.stock, call).None? {
      var l' := Do(l, call);
      forall i | i in initial ensures l'.stock[i] == initial[i] + Booked(l', i, |l'.rows|) {
        BookedGrows(l, RowOf(call), Delta(call), l'.stock, i, |l.rows|);
      }
    }
  }

  /** Each item's stock is its initial stock plus ins, minus outs, plus signed
      adjustments, after any sequence of calls; a refused call changes nothing. */
  lemma {:induction false} LedgerConservation(initial: map<Item, int>, l: Ledger, calls: seq<Call>)
    requires Balanced(initial, l)
    ensures Balanced(initial, Run(l, calls))
    decreases |calls|
  {
    if calls != [] {
      DoBalances(initial, l, calls[0]);
      LedgerConservation(initial, Do(l, calls[0]), calls[1..]);
    }
  }

  predicate NonNegative(stock: map<Item, int>) { forall i | i in stock :: stock[i] >= 0 }

  predicate Guarded(calls: seq<Call>) {
    forall k | 0 <= k < |calls| :: calls[k].Move? ==> !calls[k].allowNegative
  }

  /** Stock that starts at zero or more stays there while nobody allows otherwise. */
  lemma {:induction false} StockStaysNonNegative(l: Ledger, calls: seq<Call>)
    requires NonNegative(l.stock) && Guarded(calls)
    ensures NonNegative(Run(l, calls).stock)
    decreases |calls|
  {
    if calls != [] {
      assert calls[0].Move? ==> !calls[0].allowNegative;
      forall k | 0 <= k < |calls[1..]| ensures calls[1..][k].Move? ==> !calls[1..][k].allowNegative {
        assert calls[1..][k] == calls[k + 1];
      }
      StockStaysNonNegative(Do(l, calls[0]), calls[1..]);
    }
  }

  /** An 'in' is refused for lack of stock exactly when the stock was already
      below minus its quantity, which a guarded run never reaches. */
  lemma InsRefusedIff(stock: map<Item, int>, item: Item, quantity: int)
    ensures Refusal(stock, Move(item, "in", quantity, false)) == Some(Insufficient(item)) <==>
              quantity > 0 && item in stock && stock[item] + quantity < 0
    ensures NonNegative(stock) && quantity > 0 && item in stock ==>
              Refusal(stock, Move(item, "in", quantity, false)).None?
  {
  }

  // ---------------------------------------------- taken and returned in any run

  /** Whose call it is: the deduction of one sold line, its reversal, or anything else. */
  datatype Part = Taking | Returning | Elsewhere

  datatype Tagged = Tagged(part: Part, call: Call)

  function Plain(run: seq<Tagged>): seq<Call> {
    seq(|run|, k requires 0 <= k < |run| => run[k].call)
  }

  /** The calls of one part, as lines. */
  function LinesOf(run: seq<Tagged>, part: Part): seq<Line> {
    if run == [] then []
    else if run[0].part == part && run[0].call.Move? then
      [Line(run[0].call.item, run[0].call.quantity)] + LinesOf(run[1..], part)
    else LinesOf(run[1..], part)
  }

  /** Deductions take out, reversals put in. */
  predicate WellTagged(run: seq<Tagged>) {
    forall k | 0 <= k < |run| ::
      && (run[k].part == Taking ==> run[k].call.Move? && run[k].call.kind == "out" && !run[k].call.allowNegative)
      && (run[k].part == Returning ==> run[k].call.Move? && run[k].call.kind == "in" && !run[k].call.allowNegative)
  }

  /** What the accepted calls of one part move. */
  function Net(l: Ledger, run: seq<Tagged>, part: Part, item: Item): int
    decreases |run|
  {
    if run == [] then 0
    else
      var call := run[0].call;
      (if run[0].part == part && call.item == item && Refusal(l.stock, call).None? then Delta(call) else 0)
      + Net(Do(l, call), run[1..], part, item)
  }

  predicate Accepted(l: Ledger, run: seq<Tagged>, part: Part)
    decreases |run|
  {
    run == []
    || (&& (run[0].part == part ==> Refusal(l.stock, run[0].call).None?)
        && Accepted(Do(l, run[0].call), run[1..], part))
  }

  lemma {:induction false} NetSplits(l: Ledger, run: seq<Tagged>, item: Item)
    requires item in l.stock
    ensures item in Run(l, Plain(run)).stock
    ensures Run(l, Plain(run)).stock[item] ==
              l.stock[item] + Net(l, run, Taking, item) + Net(l, run, Returning, item) + Net(l, run, Elsewhere, item)
    decreases |run|
  {
    if run != [] {
      assert Plain(run)[1..] == Plain(run[1..]);
      NetSplits(Do(l, run[0].call), run[1..], item);
    }
  }

  lemma {:induction false} NetOfPart(l: Ledger, run: seq<Tagged>, part: Part, item: Item)
    requires WellTagged(run) && part != Elsewhere && Accepted(l, run, part)
    ensures Net(l, run, part, item) ==
              if part == Taking then -Total(LinesOf(run, part), item) else Total(LinesOf(run, part), item)
    decreases |run|
  {
    if run != [] {
      var rest := run[1..];
      assert run[0].part == Taking ==> run[0].call.Move? && run[0].call.kind == "out";
      assert forall k | 0 <= k < |rest| :: rest[k] == run[k + 1];
      NetOfPart(Do(l, run[0].call), rest, part, item);
      if run[0].part == part {
        assert LinesOf(run, part)[1..] == LinesOf(rest, part);
      }
    }
  }

  /** Returned lines are always accepted while stock never goes below zero. */
  lemma {:induction false} ReturnsAreAccepted(l: Ledger, run: seq<Tagged>)
    requires WellTagged(run) && NonNegative(l.stock) && Guarded(Plain(run))
    requires forall k | 0 <= k < |run| && run[k].part == Returning ::
               run[k].call.quantity > 0 && run[k].call.item in l.stock
    ensures Accepted(l, run, Returning)
    decreases |run|
  {
    if run != [] {
      var rest, l' := run[1..], Do(l, run[0].call);
      assert Plain(run)[0] == run[0].call;
      forall k | 0 <= k < |rest| ensures rest[k] == run[k + 1] && Plain(rest)[k] == Plain(run)[k + 1] {}
      assert NonNegative(l'.stock);
      ReturnsAreAccepted(l', rest);
    }
  }

  /** Deduct and reverse cancel: whatever else happens in between, once a line's
      plan has been taken out and the same lines, in any order, have been put back,
      every item stands where the other calls alone have moved it. */
  lemma DeductAndReverseCancel(l: Ledger, run: seq<Tagged>, item: Item)
    requires item in l.stock && WellTagged(run) && NonNegative(l.stock) && Guarded(Plain(run))
    requires Accepted(l, run, Taking)
    requires multiset(LinesOf(run, Taking)) == multiset(LinesOf(run, Returning))
    ensures Accepted(l, run, Returning)
    ensures item in Run(l, Plain(run)).stock
    ensures Run(l, Plain(run)).stock[item] == l.stock[item] + Net(l, run, Elsewhere, item)
  {
    forall k | 0 <= k < |run| && run[k].part == Returning
      ensures run[k].call.quantity > 0 && run[k].call.item in l.stock
    {
      LineListed(run, Returning, k);
      var line := Line(run[k].call.item, run[k].call.quantity);
      assert line in multiset(LinesOf(run, Taking));
      TakenLineExists(l, run, line);
    }
    ReturnsAreAccepted(l, run);
    NetSplits(l, run, item);
    NetOfPart(l, run, Taking, item);
    NetOfPart(l, run, Returning, item);
    TotalOfSame(LinesOf(run, Taking), LinesOf(run, Returning), item);
  }

  lemma {:induction false} LineListed(run: seq<Tagged>, part: Part, k: nat)
    requires k < |run| && run[k].part == part && run[k].call.Move?
    ensures Line(run[k].call.item, run[k].call.quantity) in multiset(LinesOf(run, part))
    decreases |run|
  {
    if k > 0 {
      LineListed(run[1..], part, k - 1);
    }
  }

  /** A line that was taken out had a positive quantity and an existing item. */
  lemma {:induction false} TakenLineExists(l: Ledger, run: seq<Tagged>, line: Line)
    requires WellTagged(run) && Accepted(l, run, Taking) && line in LinesOf(run, Taking)
    ensures line.quantity > 0 && line.item in l.stock
    decreases |run|
  {
    var head := run[0];
    assert head.part == Taking ==> head.call.Move? && head.call.kind == "out";
    if !(head.part == Taking && line == Line(head.call.item, head.call.quantity)) {
      assert forall k | 0 <= k < |run[1..]| :: run[1..][k] == run[k + 1];
      TakenLineExists(Do(l, head.call), run[1..], line);
    }
  }
}
