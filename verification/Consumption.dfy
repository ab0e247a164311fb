/**
 What a sold line takes from inventory: the recipe of its variant and its chosen
 options, where the quantity set by the size replaces the option's own.
 Quantities are whole thousandths, as in the ledger.
 */
module Consumption {
  import opened Dicts
  import opened Options
  import opened OptionSelection
  import opened Stock

  datatype RecipeItem = RecipeItem(item: Id, quantity: int)

  /** `tracks` is None when the variant is not found. */
  datatype Variant = Variant(tracks: Option<bool>, recipe: seq<RecipeItem>, links: seq<Link>)

  datatype Source = Recipe | BySize | ByOption

  /** `ConsumptionLine` */
  datatype Planned = Planned(item: Id, quantity: int, source: Source)

  /** `_tracks_inventory`: an unknown variant is never exempt. */
  predicate Tracks(v: Variant) { v.tracks.None? || v.tracks.value }

  /** What the size sets per option of a group; zero when it does not offer the group. */
  function SizeQuantity(links: seq<Link>, g: Id): int {
    if g in Bounds(links) then Bounds(links)[g].perOption else 0
  }

  // --------------------------------------------------------- plan, as a function

  function RecipeLine(r: RecipeItem, qty: int): seq<Planned> { [Planned(r.item, r.quantity * qty, Recipe)] }

  function OptionLine(links: seq<Link>, qty: int, c: Chosen): seq<Planned> {
    var bySize := SizeQuantity(links, c.option.group);
    var perUnit := if bySize > 0 then bySize else c.option.itemQuantity;
    if c.option.item.None? || perUnit <= 0 then []
    else [Planned(c.option.item.value, if c.perLine then perUnit * c.quantity else perUnit * qty * c.quantity,
                  if bySize > 0 then BySize else ByOption)]
  }

  function FlatMap<S, T>(f: S -> seq<T>, xs: seq<S>): seq<T> {
    if xs == [] then [] else FlatMap(f, xs[..|xs| - 1]) + f(xs[|xs| - 1])
  }

  function Plan(v: Variant, qty: int, chosen: seq<Chosen>): seq<Planned> {
    if !Tracks(v) then []
    else
      FlatMap((r: RecipeItem) => RecipeLine(r, qty), v.recipe)
      + FlatMap((c: Chosen) => OptionLine(v.links, qty, c), chosen)
  }

  /** `plan_line_consumption` */
  method PlanLineConsumption(v: Variant, qty: int, chosen: seq<Chosen>) returns (lines: seq<Planned>)
    ensures lines == Plan(v, qty, chosen)
    ensures forall i: Item :: Total(Bare(lines), i) == Amount(v, qty, chosen, i)
  {
    forall i: Item ensures Total(Bare(Plan(v, qty, chosen)), i) == Amount(v, qty, chosen, i) {
      TakesTheAmount(v, qty, chosen, i);
    }
    if !Tracks(v) { return []; }
    ghost var recipeLine := (r: RecipeItem) => RecipeLine(r, qty);
    ghost var optionLine := (c: Chosen) => OptionLine(v.links, qty, c);
    lines := [];
    for n := 0 to |v.recipe|
      invariant lines == FlatMap(recipeLine, v.recipe[..n])
    {
      assert v.recipe[..n + 1][..n] == v.recipe[..n];
      lines := lines + [Planned(v.recipe[n].item, v.recipe[n].quantity * qty, Recipe)];
    }
    assert v.recipe[..|v.recipe|] == v.recipe;
    var byGroup := Bounds(v.links);
    ghost var fixedPart := lines;
    for n := 0 to |chosen|
      invariant lines == fixedPart + FlatMap(optionLine, chosen[..n])
    {
      assert chosen[..n + 1][..n] == chosen[..n];
      var option := chosen[n].option;
      if option.item.None? { continue; }
      var ofGroup := if option.group in byGroup then byGroup[option.group].perOption else 0;
      var sizeRules := ofGroup > 0;
      var perUnit := if sizeRules then ofGroup else option.itemQuantity;
      if perUnit <= 0 { continue; }
      var consumed := if chosen[n].perLine then perUnit * chosen[n].quantity else perUnit * qty * chosen[n].quantity;
      lines := lines + [Planned(option.item.value, consumed, if sizeRules then BySize else ByOption)];
    }
    assert chosen[..|chosen|] == chosen;
  }

  function Bare(lines: seq<Planned>): seq<Line> {
    seq(|lines|, i requires 0 <= i < |lines| => Line(lines[i].item, lines[i].quantity))
  }

  function AddUp(lines: seq<Planned>): Dict<int> {
    if lines == [] then Empty()
    else
      var d, line := AddUp(lines[..|lines| - 1]), lines[|lines| - 1];
      Put(d, line.item, Get(d, line.item, 0) + line.quantity)
  }

  lemma AddUpStep(lines: seq<Planned>, n: nat)
    requires n < |lines|
    ensures var d, line := AddUp(lines[..n]), lines[n];
            AddUp(lines[..n + 1]) == Put(d, line.item, Get(d, line.item, 0) + line.quantity)
  {
    assert lines[..n + 1][..n] == lines[..n];
  }

  method Accumulate(lines: seq<Planned>) returns (required: Dict<int>)
    ensures required == AddUp(lines)
  {
    required := Empty();
    for n := 0 to |lines|
      invariant required == AddUp(lines[..n])
    {
      AddUpStep(lines, n);
      required := Put(required, lines[n].item, Get(required, lines[n].item, 0) + lines[n].quantity);
    }
    assert lines[..|lines|] == lines;
  }

  /** `required_consumption`: the plan added up by item. */
  method RequiredConsumption(v: Variant, qty: int, chosen: seq<Chosen>) returns (required: Dict<int>)
    ensures required == AddUp(Plan(v, qty, chosen))
    ensures forall i: Id :: Get(required, i, 0) == Amount(v, qty, chosen, i)
  {
    var lines := PlanLineConsumption(v, qty, chosen);
    required := Accumulate(lines);
    AddUpAggregates(lines);
    forall i: Id ensures Get(required, i, 0) == Amount(v, qty, chosen, i) { AggregatesGet(required, Bare(lines), i); }
  }

  lemma AggregatesGet(required: Dict<int>, lines: seq<Line>, i: Id)
    requires Aggregates(required.at, lines) && Ok(required)
    ensures Get(required, i, 0) == Total(lines, i)
  {
    if i !in required.at { TotalOfAbsent(lines, i); }
  }

  lemma AggregatesMore(required: map<Id, int>, lines: seq<Line>, line: Line, had: int)
    requires line.item >= 0
    requires Aggregates(required, lines) && had == if line.item in required then required[line.item] else 0
    ensures Aggregates(required[line.item := had + line.quantity], lines + [line])
  {
    forall i | i in required[line.item := had + line.quantity]
      ensures required[line.item := had + line.quantity][i] == Total(lines + [line], i)
    {
      TotalConcat(lines, [line], i);
      if i !in required { TotalOfAbsent(lines, i); }
    }
  }

  lemma BareMore(lines: seq<Planned>)
    requires lines != []
    ensures var most, line := lines[..|lines| - 1], lines[|lines| - 1];
            Bare(lines) == Bare(most) + [Line(line.item, line.quantity)]
  {
  }

  lemma AddUpMore(d: Dict<int>, most: seq<Line>, line: Planned)
    requires Aggregates(d.at, most) && Ok(d)
    ensures var d' := Put(d, line.item, Get(d, line.item, 0) + line.quantity);
            Aggregates(d'.at, most + [Line(line.item, line.quantity)]) && Ok(d') && d'.keys != []
  {
    PutKeepsOk(d, line.item, Get(d, line.item, 0) + line.quantity);
    AggregatesMore(d.at, most, Line(line.item, line.quantity), Get(d, line.item, 0));
  }

  /** The dictionary holds, for each item of the lines and no other, its total. */
  lemma {:induction false} AddUpAggregates(lines: seq<Planned>)
    ensures Aggregates(AddUp(lines).at, Bare(lines)) && Ok(AddUp(lines))
    ensures AddUp(lines).keys == [] <==> lines == []
  {
    if lines != [] {
      var most, line := lines[..|lines| - 1], lines[|lines| - 1];
      AddUpAggregates(most);
      AddUpMore(AddUp(most), Bare(most), line);
      BareMore(lines);
    }
  }

  // ------------------------------------------------- what a plan depends on

  lemma {:induction false} FlatMapConcat<S, T>(f: S -> seq<T>, a: seq<S>, b: seq<S>)
    ensures FlatMap(f, a + b) == FlatMap(f, a) + FlatMap(f, b)
    decreases |b|
  {
    if b == [] {
      assert a + b == a;
    } else {
      FlatMapConcat(f, a, b[..|b| - 1]);
      assert (a + b)[..|a + b| - 1] == a + b[..|b| - 1];
    }
  }

  lemma WithoutEarlier<S>(xs: seq<S>, k: nat)
    requires k < |xs| - 1
    ensures var rest := Without(xs, k);
            && |rest| == |xs| - 1 && rest[|rest| - 1] == xs[|xs| - 1]
            && rest[..|rest| - 1] == Without(xs[..|xs| - 1], k)
  {
  }

  lemma MultisetSwap<T>(a: seq<T>, b: seq<T>, x: seq<T>, last: seq<T>)
    requires multiset(a) == multiset(b) + multiset(x)
    ensures multiset(a + last) == multiset(b + last) + multiset(x)
  {
  }

  lemma {:induction false} FlatMapWithout<S, T>(f: S -> seq<T>, xs: seq<S>, k: nat)
    requires k < |xs|
    ensures multiset(FlatMap(f, xs)) == multiset(FlatMap(f, Without(xs, k))) + multiset(f(xs[k]))
    decreases |xs|
  {
    var most, last := xs[..|xs| - 1], xs[|xs| - 1];
    if k == |xs| - 1 {
      assert Without(xs, k) == most;
    } else {
      FlatMapWithout(f, most, k);
      WithoutEarlier(xs, k);
      MultisetSwap(FlatMap(f, most), FlatMap(f, Without(most, k)), f(xs[k]), f(last));
    }
  }

  lemma {:induction false} FlatMapOfSame<S, T>(f: S -> seq<T>, a: seq<S>, b: seq<S>)
    requires multiset(a) == multiset(b)
    ensures multiset(FlatMap(f, a)) == multiset(FlatMap(f, b))
    decreases |a|
  {
    assert |a| == |multiset(a)| == |multiset(b)| == |b|;
    if a != [] {
      assert a[0] in multiset(b);
      var k :| 0 <= k < |b| && b[k] == a[0];
      MultisetWithout(a, 0);
      MultisetWithout(b, k);
      FlatMapOfSame(f, Without(a, 0), Without(b, k));
      FlatMapWithout(f, a, 0);
      FlatMapWithout(f, b, k);
    }
  }

  /** All of an option and its row that a plan reads. */
  datatype Essence = Essence(group: Id, item: Option<Id>, itemQuantity: int, quantity: int, perLine: bool)

  function EssenceOf(c: Chosen): Essence {
    Essence(c.option.group, c.option.item, c.option.itemQuantity, c.quantity, c.perLine)
  }

  function Essences(chosen: seq<Chosen>): seq<Essence> {
    seq(|chosen|, i requires 0 <= i < |chosen| => EssenceOf(chosen[i]))
  }

  function EssenceLine(links: seq<Link>, qty: int, e: Essence): seq<Planned> {
    OptionLine(links, qty, Chosen(Choice(0, e.group, e.item, e.itemQuantity, true, 0), e.quantity, e.perLine))
  }

  lemma {:induction false} PlanReadsEssences(links: seq<Link>, more: seq<Link>, qty: int, chosen: seq<Chosen>)
    requires forall g :: SizeQuantity(links, g) == SizeQuantity(more, g)
    ensures FlatMap((c: Chosen) => OptionLine(links, qty, c), chosen)
            == FlatMap((e: Essence) => EssenceLine(more, qty, e), Essences(chosen))
  {
    var f, h := (c: Chosen) => OptionLine(links, qty, c), (e: Essence) => EssenceLine(more, qty, e);
    if chosen != [] {
      PlanReadsEssences(links, more, qty, chosen[..|chosen| - 1]);
      var last := chosen[|chosen| - 1];
      assert Essences(chosen)[..|chosen| - 1] == Essences(chosen[..|chosen| - 1]);
      assert Essences(chosen)[|chosen| - 1] == EssenceOf(last);
      assert f(last) == h(EssenceOf(last));
    }
  }

  /** The catalogue was edited at most in prices, pricing type, bounds, names or
      active flags; rows may come back in another order. */
  ghost predicate SameForPlan(v: Variant, chosen: seq<Chosen>, v': Variant, chosen': seq<Chosen>) {
    && Tracks(v) == Tracks(v')
    && multiset(v.recipe) == multiset(v'.recipe)
    && (forall g :: SizeQuantity(v.links, g) == SizeQuantity(v'.links, g))
    && multiset(Essences(chosen)) == multiset(Essences(chosen'))
  }

  lemma MultisetConcat<T>(a: seq<T>, b: seq<T>)
    ensures multiset(a + b) == multiset(a) + multiset(b)
  {
  }

  lemma {:induction false} BareIsFlatMap(lines: seq<Planned>)
    ensures Bare(lines) == FlatMap((p: Planned) => [Line(p.item, p.quantity)], lines)
  {
    if lines != [] {
      BareIsFlatMap(lines[..|lines| - 1]);
      assert Bare(lines) == Bare(lines[..|lines| - 1]) + [Line(lines[|lines| - 1].item, lines[|lines| - 1].quantity)];
    }
  }

  /** Planning the line again gives the same lines. */
  lemma PlanIsStable(v: Variant, qty: int, chosen: seq<Chosen>, v': Variant, chosen': seq<Chosen>)
    requires SameForPlan(v, chosen, v', chosen')
    ensures multiset(Plan(v, qty, chosen)) == multiset(Plan(v', qty, chosen'))
    ensures multiset(Bare(Plan(v, qty, chosen))) == multiset(Bare(Plan(v', qty, chosen')))
  {
    var recipeLine := (r: RecipeItem) => RecipeLine(r, qty);
    var essenceLine := (e: Essence) => EssenceLine(v.links, qty, e);
    FlatMapOfSame(recipeLine, v.recipe, v'.recipe);
    FlatMapOfSame(essenceLine, Essences(chosen), Essences(chosen'));
    PlanReadsEssences(v.links, v.links, qty, chosen);
    PlanReadsEssences(v'.links, v.links, qty, chosen');
    MultisetConcat(FlatMap(recipeLine, v.recipe), FlatMap(essenceLine, Essences(chosen)));
    MultisetConcat(FlatMap(recipeLine, v'.recipe), FlatMap(essenceLine, Essences(chosen')));
    BareIsFlatMap(Plan(v, qty, chosen));
    BareIsFlatMap(Plan(v', qty, chosen'));
    FlatMapOfSame((p: Planned) => [Line(p.item, p.quantity)], Plan(v, qty, chosen), Plan(v', qty, chosen'));
  }

  /** Deduct and reverse of one sold line cancel, whatever other lines do between
      them and whatever is edited in the catalogue that a plan does not read. */
  lemma ReverseUndoesDeduct(l: Ledger, run: seq<Tagged>, item: Id,
                            v: Variant, qty: int, chosen: seq<Chosen>, v': Variant, chosen': seq<Chosen>)
    requires item in l.stock && WellTagged(run) && NonNegative(l.stock) && Guarded(Plain(run))
    requires SameForPlan(v, chosen, v', chosen')
    requires LinesOf(run, Taking) == Bare(Plan(v, qty, chosen)) && Accepted(l, run, Taking)
    requires LinesOf(run, Returning) == Bare(Plan(v', qty, chosen'))
    ensures Accepted(l, run, Returning)
    ensures item in Run(l, Plain(run)).stock
    ensures Run(l, Plain(run)).stock[item] == l.stock[item] + Net(l, run, Elsewhere, item)
  {
    PlanIsStable(v, qty, chosen, v', chosen');
    DeductAndReverseCancel(l, run, item);
  }

  // ------------------------------------------ what an accepted choice can take

  /** What a line takes through the options of one group. */
  function TakenThrough(links: seq<Link>, qty: int, chosen: seq<Chosen>, g: Id): int {
    if chosen == [] then 0
    else
      var c := chosen[|chosen| - 1];
      TakenThrough(links, qty, chosen[..|chosen| - 1], g)
      + if c.option.group == g && OptionLine(links, qty, c) != [] then OptionLine(links, qty, c)[0].quantity else 0
  }

  function OfGroup(chosen: seq<Chosen>, g: Id): seq<Chosen> {
    if chosen == [] then []
    else
      var c := chosen[|chosen| - 1];
      OfGroup(chosen[..|chosen| - 1], g) + (if c.option.group == g then [c] else [])
  }

  function QuantityOf(lines: seq<Planned>): int {
    if lines == [] then 0 else QuantityOf(lines[..|lines| - 1]) + lines[|lines| - 1].quantity
  }

  lemma QuantityOfConcat(a: seq<Planned>, b: seq<Planned>)
    requires |b| <= 1
    ensures QuantityOf(a + b) == QuantityOf(a) + if b == [] then 0 else b[0].quantity
  {
    if b == [] {
      assert a + b == a;
    } else {
      assert (a + b)[..|a|] == a;
    }
  }

  lemma PlanOfOptions(v: Variant, qty: int, chosen: seq<Chosen>)
    requires Tracks(v) && v.recipe == []
    ensures Plan(v, qty, chosen) == FlatMap((c: Chosen) => OptionLine(v.links, qty, c), chosen)
  {
  }

  /** It is the quantity of the lines planned for the group's own choices. */
  lemma {:induction false} TakenIsPlanned(v: Variant, qty: int, chosen: seq<Chosen>, g: Id)
    requires Tracks(v)
    ensures TakenThrough(v.links, qty, chosen, g) == QuantityOf(Plan(v.(recipe := []), qty, OfGroup(chosen, g)))
  {
    var f := (c: Chosen) => OptionLine(v.links, qty, c);
    PlanOfOptions(v.(recipe := []), qty, OfGroup(chosen, g));
    if chosen != [] {
      var c, most := chosen[|chosen| - 1], chosen[..|chosen| - 1];
      PlanOfOptions(v.(recipe := []), qty, OfGroup(most, g));
      TakenIsPlanned(v, qty, most, g);
      if c.option.group == g {
        FlatMapConcat(f, OfGroup(most, g), [c]);
        assert FlatMap(f, [c]) == f(c);
        QuantityOfConcat(FlatMap(f, OfGroup(most, g)), f(c));
      } else {
        assert OfGroup(chosen, g) == OfGroup(most, g);
      }
    }
  }

  /** Chosen options of the group that are linked to an item. */
  function Linked(chosen: seq<Chosen>, g: Id): nat {
    if chosen == [] then 0
    else
      var c := chosen[|chosen| - 1];
      Linked(chosen[..|chosen| - 1], g) + if c.option.group == g && c.option.item.Some? then 1 else 0
  }

  lemma {:induction false} TakenIsLinkedTimesSize(cat: Catalog, links: seq<Link>, qty: int, chosen: seq<Chosen>, g: Id)
    requires Grouped(cat, chosen) && g in cat.groups && cat.groups[g].mode == Counted && SizeQuantity(links, g) > 0
    requires forall k | 0 <= k < |chosen| && chosen[k].option.group == g ::
               chosen[k].quantity == 1 && !chosen[k].perLine
    ensures TakenThrough(links, qty, chosen, g) == Linked(chosen, g) * (SizeQuantity(links, g) * qty)
    ensures Linked(chosen, g) <= Picks(cat, chosen, g)
    ensures (forall k | 0 <= k < |chosen| && chosen[k].option.group == g :: chosen[k].option.item.Some?) ==>
              Linked(chosen, g) == Picks(cat, chosen, g)
  {
    if chosen != [] {
      var c, most := chosen[|chosen| - 1], chosen[..|chosen| - 1];
      TakenIsLinkedTimesSize(cat, links, qty, most, g);
      var size := SizeQuantity(links, g) * qty;
      assert (Linked(most, g) + 1) * size == Linked(most, g) * size + size;
      assert c == chosen[|chosen| - 1];
    }
  }

  /** For an accepted choice without once-per-line options, a counted group whose
      size sets a quantity takes at most its maximum of that quantity per unit
      sold, and exactly that when it is mandatory and its options have an item. */
  lemma AcceptedGroupTakes(cat: Catalog, links: seq<Link>, qty: nat, chosen: seq<Chosen>, strict: bool, g: Id)
    requires Consistent(cat, links, chosen) && Accepts(cat, links, chosen, strict)
    requires g in Bounds(links) && Bounds(links)[g].perOption > 0
    requires g in cat.groups && cat.groups[g].mode == Counted
    requires Bounds(links)[g].lo <= Bounds(links)[g].hi && 0 <= Bounds(links)[g].lo
    requires forall k | 0 <= k < |chosen| && chosen[k].option.group == g :: !chosen[k].perLine
    ensures var most := Bounds(links)[g].hi * (Bounds(links)[g].perOption * qty);
            && TakenThrough(links, qty, chosen, g) <= most
            && (Bounds(links)[g].lo > 0
                && (forall k | 0 <= k < |chosen| && chosen[k].option.group == g :: chosen[k].option.item.Some?)
                ==> TakenThrough(links, qty, chosen, g) == most)
  {
    BoundsDomain(links);
    var l := Bounds(links)[g];
    assert g in Discounting(cat, links);
    assert CardinalityOk(cat, links, g, Picks(cat, chosen, g));
    forall k | 0 <= k < |chosen| && chosen[k].option.group == g ensures chosen[k].quantity == 1 {
      assert OneUnit(cat, chosen[k]);
    }
    TakenIsLinkedTimesSize(cat, links, qty, chosen, g);
    MulMonotone(Linked(chosen, g), l.hi, l.perOption * qty);
  }

  lemma MulMonotone(a: int, b: int, size: nat)
    requires a <= b
    ensures a * size <= b * size
  {
  }

  /** A counted option of a group that the variant does not offer, with a quantity
      of its own. With the flag off it can be added to any accepted choice, though
      groups that move stock are promised to be checked always, and then the line
      takes that quantity per unit sold. */
  lemma UnofferedTakesStock(cat: Catalog, v: Variant, qty: int, chosen: seq<Chosen>, o: Choice)
    requires Consistent(cat, v.links, chosen) && Accepts(cat, v.links, chosen, false) && Tracks(v)
    requires o.group in cat.groups && cat.groups[o.group].mode == Counted && o.group !in Bounds(v.links)
    requires OwnConsumption(o)
    ensures var more := chosen + [Chosen(o, 1, false)];
            && Consistent(cat, v.links, more) && Accepts(cat, v.links, more, false)
            && Plan(v, qty, more) == Plan(v, qty, chosen) + [Planned(o.item.value, o.itemQuantity * qty, ByOption)]
  {
    var c := Chosen(o, 1, false);
    var more := chosen + [c];
    assert forall k | 0 <= k < |more| :: more[k].option.group in cat.groups;
    UnofferedChoiceIff(cat, v.links, chosen, c, false);
    assert more[..|more| - 1] == chosen;
    assert OptionLine(v.links, qty, c) == [Planned(o.item.value, o.itemQuantity * qty, ByOption)];
  }

  // ----------------------------------------------- per unit and once per line

  function OfMark(chosen: seq<Chosen>, perLine: bool): seq<Chosen> {
    if chosen == [] then []
    else
      var c, rest := chosen[|chosen| - 1], OfMark(chosen[..|chosen| - 1], perLine);
      if c.perLine == perLine then rest + [c] else rest
  }

  /** What mapped lines take of an item. */
  function Takes<S>(f: S -> seq<Planned>, xs: seq<S>, item: Item): int {
    if xs == [] then 0 else Takes(f, xs[..|xs| - 1], item) + Total(Bare(f(xs[|xs| - 1])), item)
  }

  lemma {:induction false} TakesIsTotal<S>(f: S -> seq<Planned>, xs: seq<S>, item: Item)
    ensures Total(Bare(FlatMap(f, xs)), item) == Takes(f, xs, item)
  {
    if xs != [] {
      var most, last := xs[..|xs| - 1], xs[|xs| - 1];
      TakesIsTotal(f, most, item);
      assert Bare(FlatMap(f, xs)) == Bare(FlatMap(f, most)) + Bare(f(last));
      TotalConcat(Bare(FlatMap(f, most)), Bare(f(last)), item);
    }
  }

  function OptionTakes(links: seq<Link>, qty: int, chosen: seq<Chosen>, item: Item): int {
    Takes((c: Chosen) => OptionLine(links, qty, c), chosen, item)
  }

  function RecipeTakes(recipe: seq<RecipeItem>, qty: int, item: Item): int {
    Takes((r: RecipeItem) => RecipeLine(r, qty), recipe, item)
  }

  lemma PlanTakes(v: Variant, qty: int, chosen: seq<Chosen>, item: Item)
    requires Tracks(v)
    ensures Total(Bare(Plan(v, qty, chosen)), item)
            == RecipeTakes(v.recipe, qty, item) + OptionTakes(v.links, qty, chosen, item)
  {
    var recipeLine := (r: RecipeItem) => RecipeLine(r, qty);
    var optionLine := (c: Chosen) => OptionLine(v.links, qty, c);
    TakesIsTotal(recipeLine, v.recipe, item);
    TakesIsTotal(optionLine, chosen, item);
    var a, b := FlatMap(recipeLine, v.recipe), FlatMap(optionLine, chosen);
    assert Bare(a + b) == Bare(a) + Bare(b);
    TotalConcat(Bare(a), Bare(b), item);
  }

  lemma OneLine(p: Planned, item: Item)
    ensures Total(Bare([p]), item) == if p.item == item then p.quantity else 0
  {
    assert Bare([p])[1..] == [];
  }

  lemma OptionScales(links: seq<Link>, qty: int, c: Chosen, item: Item)
    ensures Total(Bare(OptionLine(links, qty, c)), item) ==
              if c.perLine then Total(Bare(OptionLine(links, 1, c)), item)
              else qty * Total(Bare(OptionLine(links, 1, c)), item)
  {
    var bySize := SizeQuantity(links, c.option.group);
    var perUnit := if bySize > 0 then bySize else c.option.itemQuantity;
    if c.option.item.Some? && perUnit > 0 {
      OneLine(OptionLine(links, qty, c)[0], item);
      OneLine(OptionLine(links, 1, c)[0], item);
      Commute(perUnit, qty, c.quantity);
    }
  }

  lemma Commute(a: int, b: int, c: int)
    ensures a * b * c == b * (a * 1 * c)
  {
  }

  lemma {:induction false} OptionsScale(links: seq<Link>, qty: int, chosen: seq<Chosen>, item: Item)
    ensures OptionTakes(links, qty, chosen, item) ==
              qty * OptionTakes(links, 1, OfMark(chosen, false), item)
              + OptionTakes(links, 1, OfMark(chosen, true), item)
  {
    if chosen != [] {
      var c, most := chosen[|chosen| - 1], chosen[..|chosen| - 1];
      OptionsScale(links, qty, most, item);
      OptionScales(links, qty, c, item);
      var marked := OfMark(most, c.perLine);
      assert OfMark(chosen, c.perLine) == marked + [c] && OfMark(chosen, !c.perLine) == OfMark(most, !c.perLine);
      assert (marked + [c])[..|marked|] == marked;
      Factor(qty, OptionTakes(links, 1, marked, item), Total(Bare(OptionLine(links, 1, c)), item));
    }
  }

  lemma Factor(qty: int, a: int, b: int)
    ensures qty * (a + b) == qty * a + qty * b
  {
  }

  lemma {:induction false} RecipeScales(recipe: seq<RecipeItem>, qty: int, item: Item)
    ensures RecipeTakes(recipe, qty, item) == qty * RecipeTakes(recipe, 1, item)
  {
    if recipe != [] {
      var r, most := recipe[|recipe| - 1], recipe[..|recipe| - 1];
      RecipeScales(most, qty, item);
      OneLine(RecipeLine(r, qty)[0], item);
      OneLine(RecipeLine(r, 1)[0], item);
      Factor(qty, RecipeTakes(most, 1, item), if r.item == item then r.quantity else 0);
    }
  }

  /** A line of qty units takes qty times what one unit takes without its once-per-line
      options, plus what those take once: the rule by which the line is charged. */
  lemma PlanScales(v: Variant, qty: int, chosen: seq<Chosen>, item: Item)
    requires Tracks(v)
    ensures Total(Bare(Plan(v, qty, chosen)), item) ==
              qty * Total(Bare(Plan(v, 1, OfMark(chosen, false))), item)
              + Total(Bare(Plan(v.(recipe := []), 1, OfMark(chosen, true))), item)
  {
    PlanTakes(v, qty, chosen, item);
    PlanTakes(v, 1, OfMark(chosen, false), item);
    PlanTakes(v.(recipe := []), 1, OfMark(chosen, true), item);
    SharesScale(v.links, v.recipe, qty, chosen, item);
  }

  /** The same of the shares of recipe and options. */
  lemma SharesScale(links: seq<Link>, recipe: seq<RecipeItem>, qty: int, chosen: seq<Chosen>, item: Item)
    ensures RecipeTakes(recipe, qty, item) + OptionTakes(links, qty, chosen, item)
            == qty * (RecipeTakes(recipe, 1, item) + OptionTakes(links, 1, OfMark(chosen, false), item))
               + (RecipeTakes([], 1, item) + OptionTakes(links, 1, OfMark(chosen, true), item))
  {
    OptionsScale(links, qty, chosen, item);
    RecipeScales(recipe, qty, item);
    Factor(qty, RecipeTakes(recipe, 1, item), OptionTakes(links, 1, OfMark(chosen, false), item));
  }

  /** Lines of a plan are positive when the recipe and the sold quantities are. */
  lemma {:induction false} PlanIsPositive(v: Variant, qty: int, chosen: seq<Chosen>)
    requires qty > 0 && forall r | r in v.recipe :: r.quantity > 0
    requires forall k | 0 <= k < |chosen| :: chosen[k].quantity > 0
    ensures forall p | p in Plan(v, qty, chosen) :: p.quantity > 0
  {
    AllInFlatMap((r: RecipeItem) => RecipeLine(r, qty), v.recipe, (p: Planned) => p.quantity > 0);
    forall c | c in chosen ensures forall p | p in OptionLine(v.links, qty, c) :: p.quantity > 0 {
      PositiveProduct(SizeQuantity(v.links, c.option.group), qty, c.quantity);
      PositiveProduct(c.option.itemQuantity, qty, c.quantity);
    }
    AllInFlatMap((c: Chosen) => OptionLine(v.links, qty, c), chosen, (p: Planned) => p.quantity > 0);
  }

  lemma PositiveProduct(a: int, b: int, c: int)
    requires b > 0 && c > 0
    ensures a > 0 ==> a * c > 0 && a * b * c > 0
  {
  }

  lemma {:induction false} AllInFlatMap<S, T>(f: S -> seq<T>, xs: seq<S>, good: T -> bool)
    requires forall x, y | x in xs && y in f(x) :: good(y)
    ensures forall y | y in FlatMap(f, xs) :: good(y)
  {
    if xs != [] {
      assert xs[|xs| - 1] in xs;
      AllInFlatMap(f, xs[..|xs| - 1], good);
    }
  }

  // ------------------------------------------------------- exactly how much

  /** What a recipe asks of an item per unit sold. */
  function RecipeAmount(recipe: seq<RecipeItem>, item: Item): int {
    if recipe == [] then 0
    else
      var last := recipe[|recipe| - 1];
      RecipeAmount(recipe[..|recipe| - 1], item) + if last.item == item then last.quantity else 0
  }

  /** What one chosen option takes of an item: the quantity the size sets for its
      group, if it is positive, or else its own, as often as it was chosen, for every
      unit or once. */
  function ChoiceAmount(links: seq<Link>, qty: int, c: Chosen, item: Item): int {
    var sized := c.option.group in Bounds(links) && Bounds(links)[c.option.group].perOption > 0;
    var each := if sized then Bounds(links)[c.option.group].perOption else c.option.itemQuantity;
    if c.option.item.None? || c.option.item.value != item || each <= 0 then 0
    else (if c.perLine then 1 else qty) * (each * c.quantity)
  }

  function ChoicesAmount(links: seq<Link>, qty: int, chosen: seq<Chosen>, item: Item): int {
    if chosen == [] then 0
    else
      ChoicesAmount(links, qty, chosen[..|chosen| - 1], item) + ChoiceAmount(links, qty, chosen[|chosen| - 1], item)
  }

  /** What qty units of a variant with some options take of an item. */
  function Amount(v: Variant, qty: int, chosen: seq<Chosen>, item: Item): int {
    if !Tracks(v) then 0 else qty * RecipeAmount(v.recipe, item) + ChoicesAmount(v.links, qty, chosen, item)
  }

  lemma {:induction false} RecipeTakesAmount(recipe: seq<RecipeItem>, qty: int, item: Item)
    ensures RecipeTakes(recipe, qty, item) == qty * RecipeAmount(recipe, item)
  {
    if recipe != [] {
      var r, most := recipe[|recipe| - 1], recipe[..|recipe| - 1];
      RecipeTakesAmount(most, qty, item);
      OneLine(RecipeLine(r, qty)[0], item);
      Factor(qty, RecipeAmount(most, item), if r.item == item then r.quantity else 0);
    }
  }

  lemma ChoiceTakesAmount(links: seq<Link>, qty: int, c: Chosen, item: Item)
    ensures Total(Bare(OptionLine(links, qty, c)), item) == ChoiceAmount(links, qty, c, item)
  {
    var size := SizeQuantity(links, c.option.group);
    var each := if size > 0 then size else c.option.itemQuantity;
    if c.option.item.Some? && each > 0 {
      OneLine(OptionLine(links, qty, c)[0], item);
      Commute(each, qty, c.quantity);
    }
  }

  lemma {:induction false} ChoicesTakeAmount(links: seq<Link>, qty: int, chosen: seq<Chosen>, item: Item)
    ensures OptionTakes(links, qty, chosen, item) == ChoicesAmount(links, qty, chosen, item)
  {
    if chosen != [] {
      ChoicesTakeAmount(links, qty, chosen[..|chosen| - 1], item);
      ChoiceTakesAmount(links, qty, chosen[|chosen| - 1], item);
    }
  }

  lemma TakesTheAmount(v: Variant, qty: int, chosen: seq<Chosen>, item: Item)
    ensures Total(Bare(Plan(v, qty, chosen)), item) == Amount(v, qty, chosen, item)
  {
    if Tracks(v) {
      PlanTakes(v, qty, chosen, item);
      RecipeTakesAmount(v.recipe, qty, item);
      ChoicesTakeAmount(v.links, qty, chosen, item);
    }
  }

  /** A recipe takes, per unit sold, the sum of the quantities of its rows. */
  lemma RecipeTakesExactly(v: Variant, qty: int, item: Item)
    requires Tracks(v)
    ensures Total(Bare(Plan(v, qty, [])), item) == qty * RecipeAmount(v.recipe, item)
  {
    TakesTheAmount(v, qty, [], item);
  }

  /** One more linked option takes exactly its own amount more, of its own item. */
  lemma OneMoreOptionTakes(v: Variant, qty: int, chosen: seq<Chosen>, c: Chosen, size: int, item: Item)
    requires Tracks(v) && c.option.item.Some?
    requires size == if c.option.group in Bounds(v.links) then Bounds(v.links)[c.option.group].perOption else 0
    ensures var each := if size > 0 then size else c.option.itemQuantity;
            var units := if c.perLine then 1 else qty;
            Total(Bare(Plan(v, qty, chosen + [c])), item) - Total(Bare(Plan(v, qty, chosen)), item)
            == if c.option.item.value == item && each > 0 then units * (each * c.quantity) else 0
  {
    assert (chosen + [c])[..|chosen|] == chosen;
    TakesTheAmount(v, qty, chosen + [c], item);
    TakesTheAmount(v, qty, chosen, item);
  }

  /** The recipe's rows come first, one line each, in their order. */
  lemma {:induction false} PlanListsRecipe(v: Variant, qty: int, chosen: seq<Chosen>, n: nat)
    requires Tracks(v) && n < |v.recipe|
    ensures |Plan(v, qty, chosen)| >= |v.recipe|
    ensures Plan(v, qty, chosen)[n] == Planned(v.recipe[n].item, v.recipe[n].quantity * qty, Recipe)
  {
    RecipeLinesAre(v.recipe, qty);
  }

  lemma {:induction false} RecipeLinesAre(recipe: seq<RecipeItem>, qty: int)
    ensures var lines := FlatMap((r: RecipeItem) => RecipeLine(r, qty), recipe);
            && |lines| == |recipe|
            && forall n | 0 <= n < |recipe| :: lines[n] == Planned(recipe[n].item, recipe[n].quantity * qty, Recipe)
  {
    if recipe != [] { RecipeLinesAre(recipe[..|recipe| - 1], qty); }
  }

  // --------------------------------------------- every sold line moves something

  datatype Entry = Entry(variant: Variant, name: string, quantity: int, chosen: seq<Chosen>)

  predicate MovesNothing(e: Entry) { Tracks(e.variant) && Plan(e.variant, e.quantity, e.chosen) == [] }

  predicate Configured(cat: Catalog, v: Variant) { v.recipe != [] || exists l | l in v.links :: GroupDiscounts(cat, l) }

  datatype Guard = Passes | NoRecipe(names: seq<string>) | NoChoice(names: seq<string>)

  predicate Unrepeated(names: seq<string>) { forall i, j | 0 <= i < j < |names| :: names[i] != names[j] }

  /** `list(dict.fromkeys(names))` */
  function Distinct(names: seq<string>): (r: seq<string>)
    ensures forall s :: s in r <==> s in names
    ensures Unrepeated(r)
  {
    if names == [] then []
    else
      var most, last := Distinct(names[..|names| - 1]), names[|names| - 1];
      assert names == names[..|names| - 1] + [last];
      if last in most then most else most + [last]
  }

  predicate Idle(cat: Catalog, e: Entry, configured: bool, name: string) {
    e.name == name && MovesNothing(e) && Configured(cat, e.variant) == configured
  }

  /** One of the first n lines moves nothing and has this name. */
  predicate Listed(cat: Catalog, entries: seq<Entry>, n: nat, configured: bool, name: string)
    requires n <= |entries|
  {
    exists k | 0 <= k < n :: Idle(cat, entries[k], configured, name)
  }

  lemma ListedMore(cat: Catalog, entries: seq<Entry>, n: nat, configured: bool, name: string)
    requires n < |entries|
    ensures Listed(cat, entries, n + 1, configured, name)
            <==> Listed(cat, entries, n, configured, name) || Idle(cat, entries[n], configured, name)
  {
  }

  /** Whether a line is to be reported, and then whether it is a configured one. */
  method Classify(cat: Catalog, e: Entry) returns (report: Option<bool>)
    ensures report == if MovesNothing(e) then Some(Configured(cat, e.variant)) else None
  {
    if !Tracks(e.variant) { return None; }
    var required := RequiredConsumption(e.variant, e.quantity, e.chosen);
    AddUpAggregates(Plan(e.variant, e.quantity, e.chosen));
    report := if required.keys != [] then None else Some(Configured(cat, e.variant));
  }

  lemma SomeListed(cat: Catalog, entries: seq<Entry>, k: nat)
    requires k < |entries| && MovesNothing(entries[k])
    ensures Listed(cat, entries, |entries|, Configured(cat, entries[k].variant), entries[k].name)
  {
    assert Idle(cat, entries[k], Configured(cat, entries[k].variant), entries[k].name);
  }

  /** `ensure_lines_consume_inventory`: passes exactly when every tracked line moves
      something; otherwise names the lines without any configuration, and only if
      there are none, those whose configuration no choice has used. */
  method EnsureLinesConsumeInventory(cat: Catalog, entries: seq<Entry>) returns (r: Guard)
    ensures r.Passes? <==> forall k | 0 <= k < |entries| :: !MovesNothing(entries[k])
    ensures !r.Passes? ==> Unrepeated(r.names)
    ensures r.NoRecipe? ==> r.names != [] && forall s :: s in r.names <==> Listed(cat, entries, |entries|, false, s)
    ensures r.NoChoice? ==> r.names != [] && (forall s :: s in r.names <==> Listed(cat, entries, |entries|, true, s))
                            && forall s :: !Listed(cat, entries, |entries|, false, s)
  {
    var noRecipe, noChoice := [], [];
    for n := 0 to |entries|
      invariant forall s :: s in noRecipe <==> Listed(cat, entries, n, false, s)
      invariant forall s :: s in noChoice <==> Listed(cat, entries, n, true, s)
    {
      forall s, configured
        ensures Listed(cat, entries, n + 1, configured, s)
                <==> Listed(cat, entries, n, configured, s) || Idle(cat, entries[n], configured, s)
      {
        ListedMore(cat, entries, n, configured, s);
      }
      var report := Classify(cat, entries[n]);
      if report == Some(true) {
        noChoice := noChoice + [entries[n].name];
      } else if report == Some(false) {
        noRecipe := noRecipe + [entries[n].name];
      }
    }
    r := Verdict(noRecipe, noChoice);
    forall k | 0 <= k < |entries| && MovesNothing(entries[k]) ensures !r.Passes? { SomeListed(cat, entries, k); }
    if !r.Passes? {
      var s := r.names[0];
      assert s in r.names;
      assert Listed(cat, entries, |entries|, r.NoChoice?, s);
    }
  }

  /** The complaint, if any: about lines without configuration first. */
  function Verdict(noRecipe: seq<string>, noChoice: seq<string>): (r: Guard)
    ensures r.Passes? <==> noRecipe == [] && noChoice == []
    ensures !r.Passes? ==> Unrepeated(r.names)
    ensures r.NoRecipe? ==> r.names != [] && forall s :: s in r.names <==> s in noRecipe
    ensures r.NoChoice? ==> r.names != [] && noRecipe == [] && forall s :: s in r.names <==> s in noChoice
  {
    if noRecipe != [] then
      assert noRecipe[0] in Distinct(noRecipe);
      NoRecipe(Distinct(noRecipe))
    else if noChoice != [] then
      assert noChoice[0] in Distinct(noChoice);
      NoChoice(Distinct(noChoice))
    else Passes
  }

  lemma {:induction false} FlatMapIsEmpty<S, T>(f: S -> seq<T>, xs: seq<S>)
    ensures FlatMap(f, xs) == [] <==> forall x | x in xs :: f(x) == []
  {
    if xs != [] {
      FlatMapIsEmpty(f, xs[..|xs| - 1]);
      assert xs == xs[..|xs| - 1] + [xs[|xs| - 1]];
    }
  }

  /** A tracked line moves nothing exactly when its variant has no recipe and no
      chosen option is linked to an item with a quantity from size or option. */
  lemma MovesNothingIff(e: Entry)
    requires Tracks(e.variant)
    ensures MovesNothing(e) <==>
              (e.variant.recipe == []
               && forall c | c in e.chosen ::
                    c.option.item.None?
                    || (SizeQuantity(e.variant.links, c.option.group) <= 0 && c.option.itemQuantity <= 0))
  {
    var v, qty := e.variant, e.quantity;
    FlatMapIsEmpty((r: RecipeItem) => RecipeLine(r, qty), v.recipe);
    FlatMapIsEmpty((c: Chosen) => OptionLine(v.links, qty, c), e.chosen);
    if v.recipe != [] {
      var r := v.recipe[0];
      assert r in v.recipe && ((x: RecipeItem) => RecipeLine(x, qty))(r) != [];
    }
    forall c ensures ((x: Chosen) => OptionLine(v.links, qty, x))(c) == [] <==>
              (c.option.item.None? || (SizeQuantity(v.links, c.option.group) <= 0 && c.option.itemQuantity <= 0)) {}
  }

  /** The complaint that nothing was chosen is also given for a line whose chosen
      option belongs to a group with a size quantity but is linked to no item. */
  lemma ChosenYetReportedAsNotChosen(cat: Catalog, link: Link, c: Chosen, qty: int)
    requires link.perOption > 0 && c.option.group == link.group && c.option.item.None?
    ensures var e := Entry(Variant(Some(true), [], [link]), "x", qty, [c]);
            MovesNothing(e) && Configured(cat, e.variant)
  {
    var e := Entry(Variant(Some(true), [], [link]), "x", qty, [c]);
    MovesNothingIff(e);
    assert GroupDiscounts(cat, link) && link in e.variant.links;
  }

  // ----------------------------------------------------------- a batch of lines

  function AllLines(entries: seq<Entry>): seq<Line> {
    if entries == [] then []
    else
      var e := entries[|entries| - 1];
      AllLines(entries[..|entries| - 1]) + Bare(Plan(e.variant, e.quantity, e.chosen))
  }

  lemma {:induction false} AllLinesFrom(entries: seq<Entry>, n: nat)
    requires n <= |entries|
    ensures AllLines(entries[..n]) <= AllLines(entries)
    decreases |entries|
  {
    if n == |entries| {
      assert entries[..n] == entries;
    } else {
      AllLinesFrom(entries[..|entries| - 1], n);
      assert entries[..|entries| - 1][..n] == entries[..n];
    }
  }

  /** What a batch takes of an item. */
  function BatchAmount(entries: seq<Entry>, item: Item): int {
    if entries == [] then 0
    else
      var e := entries[|entries| - 1];
      BatchAmount(entries[..|entries| - 1], item) + Amount(e.variant, e.quantity, e.chosen, item)
  }

  lemma {:induction false} BatchTakesAmount(entries: seq<Entry>, item: Item)
    ensures Total(AllLines(entries), item) == BatchAmount(entries, item)
  {
    if entries != [] {
      var e, most := entries[|entries| - 1], entries[..|entries| - 1];
      BatchTakesAmount(most, item);
      TakesTheAmount(e.variant, e.quantity, e.chosen, item);
      TotalConcat(AllLines(most), Bare(Plan(e.variant, e.quantity, e.chosen)), item);
    }
  }

  /** Once the lines of one entry are refused, so is the batch. */
  lemma RefusedForGood(stock: map<Item, int>, entries: seq<Entry>, n: nat)
    requires n <= |entries| && FirstRefusal(stock, AllLines(entries[..n]), "out").Some?
    ensures !Fits(stock, AllLines(entries))
  {
    AllLinesFrom(entries, n);
    var done := AllLines(entries[..n]);
    var rest := AllLines(entries)[|done|..];
    RefusalConcat(stock, done, rest, "out");
    assert AllLines(entries) == done + rest;
    OutsSucceedIff(stock, AllLines(entries));
  }

  lemma AllLinesStep(entries: seq<Entry>, n: nat)
    requires n < |entries|
    ensures var e := entries[n];
            AllLines(entries[..n + 1]) == AllLines(entries[..n]) + Bare(Plan(e.variant, e.quantity, e.chosen))
  {
    assert entries[..n + 1][..n] == entries[..n];
  }

  /** The loop of `deduct_order_items` and `deduct_sale` over the sold lines. */
  method DeductEach(kardex: Kardex, entries: seq<Entry>) returns (error: Option<Error>)
    modifies kardex
    ensures error.None? <==> Fits(old(kardex.stock), AllLines(entries))
    ensures error.None? ==> kardex.stock.Keys == old(kardex.stock).Keys
    ensures error.None? ==>
              forall i | i in kardex.stock :: kardex.stock[i] == old(kardex.stock)[i] - Total(AllLines(entries), i)
  {
    ghost var before := kardex.stock;
    for n := 0 to |entries|
      invariant FirstRefusal(before, AllLines(entries[..n]), "out").None?
      invariant kardex.stock == Applied(before, AllLines(entries[..n]), "out")
    {
      var lines := PlanLineConsumption(entries[n].variant, entries[n].quantity, entries[n].chosen);
      AllLinesStep(entries, n);
      RefusalConcat(before, AllLines(entries[..n]), Bare(lines), "out");
      error := kardex.ApplyLines(Bare(lines), "out");
      if error.Some? {
        RefusedForGood(before, entries, n + 1);
        return;
      }
    }
    assert entries[..|entries|] == entries;
    OutsSucceedIff(before, AllLines(entries));
    error := None;
  }

  datatype Batch = Done | Blocked(guard: Guard) | Refused(error: Error)

  /** `deduct_order_items` and `deduct_sale` after the rows are locked: a refusal
      rolls the transaction back, so only success is kept. */
  method DeductBatch(kardex: Kardex, cat: Catalog, entries: seq<Entry>) returns (r: Batch)
    modifies kardex
    ensures r.Blocked? <==> exists k | 0 <= k < |entries| :: MovesNothing(entries[k])
    ensures r.Done? <==> !r.Blocked? && Fits(old(kardex.stock), AllLines(entries))
    ensures r.Done? ==> kardex.stock.Keys == old(kardex.stock).Keys
    ensures r.Done? ==>
              forall i | i in kardex.stock :: kardex.stock[i] == old(kardex.stock)[i] - BatchAmount(entries, i)
  {
    forall i: Item ensures Total(AllLines(entries), i) == BatchAmount(entries, i) { BatchTakesAmount(entries, i); }
    var guard := EnsureLinesConsumeInventory(cat, entries);
    if !guard.Passes? { return Blocked(guard); }
    var error := DeductEach(kardex, entries);
    r := if error.Some? then Refused(error.value) else Done;
  }
}
