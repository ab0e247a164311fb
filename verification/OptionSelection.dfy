/**
 Whether a choice of options is allowed for a variant: groups picked one by one
 with a minimum and a maximum, groups picked by quantity with caps, and a strict
 flag that spares the groups that move stock from its tolerance.
 */
module OptionSelection {
  import opened Dicts
  import opened Options

  datatype Mode = Counted | Quantified

  datatype Group = Group(mode: Mode, maxPerOption: Option<int>, maxTotal: Option<int>)

  datatype Choice = Choice(id: Id, group: Id, item: Option<Id>, itemQuantity: int, active: bool, extraPrice: int)

  /** A variant offers a group (`VariantOptionGroup`). */
  datatype Link = Link(group: Id, lo: int, hi: int, perOption: int)

  /** `ChosenOption` */
  datatype Chosen = Chosen(option: Choice, quantity: int, perLine: bool)

  datatype Catalog = Catalog(groups: map<Id, Group>, options: map<Id, Choice>)

  /** What the foreign keys guarantee. */
  predicate Consistent(cat: Catalog, links: seq<Link>, chosen: seq<Chosen>) {
    && (forall l | l in links :: l.group in cat.groups)
    && (forall k | 0 <= k < |chosen| :: chosen[k].option.group in cat.groups)
  }

  // ---------------------------------------------------------- groups that matter

  /** An option that consumes on its own. */
  predicate OwnConsumption(o: Choice) { o.active && o.item.Some? && o.itemQuantity > 0 }

  predicate HasOwnConsumption(cat: Catalog, group: Id) {
    exists o | o in cat.options :: cat.options[o].group == group && OwnConsumption(cat.options[o])
  }

  /** `group_discounts` */
  predicate GroupDiscounts(cat: Catalog, link: Link) {
    link.perOption > 0 || HasOwnConsumption(cat, link.group)
  }

  /** `grupos_que_descuentan` */
  function Discounting(cat: Catalog, links: seq<Link>): set<Id> {
    (set l | l in links && l.perOption > 0 :: l.group)
    + (set l | l in links && HasOwnConsumption(cat, l.group) :: l.group)
  }

  /** The two places that ask which groups move stock agree. */
  lemma DiscountingAgrees(cat: Catalog, links: seq<Link>, g: Id)
    ensures g in Discounting(cat, links) <==> exists l :: l in links && l.group == g && GroupDiscounts(cat, l)
  {
  }

  /** `_exige_maximo` */
  predicate DemandsMax(cat: Catalog, links: seq<Link>, g: Id, lo: int) {
    lo > 0 && g in Discounting(cat, links)
  }

  /** The dictionary of bounds by group; one row per group by its UNIQUE constraint. */
  function Bounds(links: seq<Link>): map<Id, Link> {
    if links == [] then map[]
    else Bounds(links[..|links| - 1])[links[|links| - 1].group := links[|links| - 1]]
  }

  lemma {:induction false} BoundsDomain(links: seq<Link>)
    ensures forall g :: g in Bounds(links) <==> exists k :: 0 <= k < |links| && links[k].group == g
    ensures forall g | g in Bounds(links) :: Bounds(links)[g].group == g && Bounds(links)[g] in links
  {
    if links != [] {
      var most := links[..|links| - 1];
      BoundsDomain(most);
      forall g ensures g in Bounds(links) <==> exists k :: 0 <= k < |links| && links[k].group == g {
        if g in Bounds(most) {
          var k :| 0 <= k < |most| && most[k].group == g;
          assert links[k].group == g;
        }
        if k :| 0 <= k < |links| && links[k].group == g {
          if k < |most| { assert most[k].group == g; }
        }
      }
    }
  }

  // --------------------------------------------------------------- declaratively

  predicate Counts(cat: Catalog, c: Chosen, g: Id)
    requires c.option.group in cat.groups
  {
    c.option.group == g && cat.groups[g].mode == Counted && c.quantity == 1
  }

  /** How many options are picked, one unit each, in a counted group. */
  function Picks(cat: Catalog, chosen: seq<Chosen>, g: Id): nat
    requires forall k | 0 <= k < |chosen| :: chosen[k].option.group in cat.groups
  {
    if chosen == [] then 0
    else Picks(cat, chosen[..|chosen| - 1], g) + (if Counts(cat, chosen[|chosen| - 1], g) then 1 else 0)
  }

  /** Units of one option of a quantified group. */
  function Units(cat: Catalog, chosen: seq<Chosen>, g: Id, o: Id): int
    requires forall k | 0 <= k < |chosen| :: chosen[k].option.group in cat.groups
  {
    if chosen == [] then 0
    else
      var c := chosen[|chosen| - 1];
      Units(cat, chosen[..|chosen| - 1], g, o)
      + (if c.option.group == g && cat.groups[g].mode == Quantified && c.option.id == o then c.quantity else 0)
  }

  /** Units of all options of a quantified group. */
  function GroupUnits(cat: Catalog, chosen: seq<Chosen>, g: Id): int
    requires forall k | 0 <= k < |chosen| :: chosen[k].option.group in cat.groups
  {
    if chosen == [] then 0
    else
      var c := chosen[|chosen| - 1];
      GroupUnits(cat, chosen[..|chosen| - 1], g)
      + (if c.option.group == g && cat.groups[g].mode == Quantified then c.quantity else 0)
  }

  predicate OneUnit(cat: Catalog, c: Chosen)
    requires c.option.group in cat.groups
  {
    cat.groups[c.option.group].mode == Counted ==> c.quantity == 1
  }

  /** Caps of the quantified group of one choice, whether the variant offers it or not. */
  predicate WithinCaps(cat: Catalog, chosen: seq<Chosen>, c: Chosen)
    requires forall k | 0 <= k < |chosen| :: chosen[k].option.group in cat.groups
    requires c.option.group in cat.groups
  {
    var g := c.option.group;
    cat.groups[g].mode == Quantified ==>
      && (cat.groups[g].maxPerOption.Some? ==> Units(cat, chosen, g, c.option.id) <= cat.groups[g].maxPerOption.value)
      && (cat.groups[g].maxTotal.Some? ==> GroupUnits(cat, chosen, g) <= cat.groups[g].maxTotal.value)
  }

  predicate HardRules(cat: Catalog, chosen: seq<Chosen>)
    requires forall k | 0 <= k < |chosen| :: chosen[k].option.group in cat.groups
  {
    forall k | 0 <= k < |chosen| :: OneUnit(cat, chosen[k]) && WithinCaps(cat, chosen, chosen[k])
  }

  /** The cardinality rule of one group, given how many options were picked in it. */
  predicate CardinalityOk(cat: Catalog, links: seq<Link>, g: Id, picks: nat)
    requires forall l | l in links :: l.group in cat.groups
  {
    BoundsDomain(links);
    if g !in Bounds(links) then picks == 0
    else
      var l := Bounds(links)[g];
      if picks == 0 then l.lo <= 0 || cat.groups[g].mode == Quantified
      else if DemandsMax(cat, links, g, l.lo) then picks == l.hi
      else l.lo <= picks <= l.hi
  }

  /** With the strict flag off only the groups that move stock are held to their
      cardinality. */
  ghost predicate Accepts(cat: Catalog, links: seq<Link>, chosen: seq<Chosen>, strict: bool)
    requires Consistent(cat, links, chosen)
  {
    && HardRules(cat, chosen)
    && forall g: Id | strict || g in Discounting(cat, links) ::
         CardinalityOk(cat, links, g, Picks(cat, chosen, g))
  }

  // ------------------------------------------------------------- as it is computed

  predicate Grouped(cat: Catalog, chosen: seq<Chosen>) {
    forall k | 0 <= k < |chosen| :: chosen[k].option.group in cat.groups
  }

  /** `conteo_options` */
  function CountedOptions(cat: Catalog, chosen: seq<Chosen>): seq<Choice>
    requires Grouped(cat, chosen)
  {
    if chosen == [] then []
    else
      var c := chosen[|chosen| - 1];
      CountedOptions(cat, chosen[..|chosen| - 1]) + (if Counts(cat, c, c.option.group) then [c.option] else [])
  }

  function Of(t: Dict<Dict<int>>, g: Id): Dict<int> { Get(t, g, Empty()) }

  /** `t[g][o] = t[g].get(o, 0) + q` */
  function AddTo(t: Dict<Dict<int>>, g: Id, o: Id, q: int): Dict<Dict<int>> {
    Put(t, g, Put(Of(t, g), o, Get(Of(t, g), o, 0) + q))
  }

  /** `cantidad_por_grupo` */
  function Tallies(cat: Catalog, chosen: seq<Chosen>): Dict<Dict<int>>
    requires Grouped(cat, chosen)
  {
    if chosen == [] then Empty()
    else
      var c, t := chosen[|chosen| - 1], Tallies(cat, chosen[..|chosen| - 1]);
      if cat.groups[c.option.group].mode == Quantified then AddTo(t, c.option.group, c.option.id, c.quantity) else t
  }

  lemma {:induction false} TalliesOk(cat: Catalog, chosen: seq<Chosen>)
    requires Grouped(cat, chosen)
    ensures Ok(Tallies(cat, chosen))
  {
    if chosen != [] { TalliesOk(cat, chosen[..|chosen| - 1]); }
  }

  lemma {:induction false} TallyOk(cat: Catalog, chosen: seq<Chosen>, g: Id)
    requires Grouped(cat, chosen)
    ensures Ok(Of(Tallies(cat, chosen), g))
  {
    if chosen != [] {
      var c, most := chosen[|chosen| - 1], chosen[..|chosen| - 1];
      var mine := Of(Tallies(cat, most), g);
      TallyOk(cat, most, g);
      PutKeepsOk(mine, c.option.id, Get(mine, c.option.id, 0) + c.quantity);
    }
  }

  /** A choice of option o in the quantified group g. */
  predicate Tallied(cat: Catalog, c: Chosen, g: Id, o: Id) {
    c.option.group == g && g in cat.groups && cat.groups[g].mode == Quantified && c.option.id == o
  }

  lemma {:induction false} TalliesMean(cat: Catalog, chosen: seq<Chosen>, g: Id)
    requires Grouped(cat, chosen)
    ensures Sum(Of(Tallies(cat, chosen), g)) == GroupUnits(cat, chosen, g)
  {
    if chosen != [] {
      var c, most := chosen[|chosen| - 1], chosen[..|chosen| - 1];
      TalliesMean(cat, most, g);
      TallyOk(cat, most, g);
      SumPut(Of(Tallies(cat, most), g), c.option.id, c.quantity);
    }
  }

  lemma {:induction false} TalliesMeanUnits(cat: Catalog, chosen: seq<Chosen>, g: Id, o: Id)
    requires Grouped(cat, chosen)
    ensures Get(Of(Tallies(cat, chosen), g), o, 0) == Units(cat, chosen, g, o)
  {
    if chosen != [] { TalliesMeanUnits(cat, chosen[..|chosen| - 1], g, o); }
  }

  lemma {:induction false} TallyComesFrom(cat: Catalog, chosen: seq<Chosen>, g: Id, o: Id)
    requires Grouped(cat, chosen) && o in Of(Tallies(cat, chosen), g).at
    ensures exists k :: 0 <= k < |chosen| && Tallied(cat, chosen[k], g, o)
  {
    var c, most := chosen[|chosen| - 1], chosen[..|chosen| - 1];
    if Tallied(cat, c, g, o) {
      assert Tallied(cat, chosen[|chosen| - 1], g, o);
    } else {
      TallyComesFrom(cat, most, g, o);
      var k :| 0 <= k < |most| && Tallied(cat, most[k], g, o);
      assert chosen[k] == most[k];
    }
  }

  lemma {:induction false} TalliesCover(cat: Catalog, chosen: seq<Chosen>, k: nat)
    requires Grouped(cat, chosen) && k < |chosen| && cat.groups[chosen[k].option.group].mode == Quantified
    ensures var t := Tallies(cat, chosen);
            chosen[k].option.group in t.at && chosen[k].option.id in t.at[chosen[k].option.group].at
  {
    if k < |chosen| - 1 { TalliesCover(cat, chosen[..|chosen| - 1], k); }
  }

  lemma {:induction false} TalliesAreNotEmpty(cat: Catalog, chosen: seq<Chosen>, g: Id)
    requires Grouped(cat, chosen) && g in Tallies(cat, chosen).at
    ensures Tallies(cat, chosen).at[g].keys != []
  {
    var c, most := chosen[|chosen| - 1], chosen[..|chosen| - 1];
    var t := Tallies(cat, chosen);
    TallyOk(cat, chosen, g);
    if cat.groups[c.option.group].mode == Quantified && c.option.group == g {
      assert c.option.id in Of(t, g).at;
    } else {
      TalliesAreNotEmpty(cat, most, g);
      assert Of(t, g) == Of(Tallies(cat, most), g);
    }
  }

  function CountIn(options: seq<Choice>, g: Id): nat {
    if options == [] then 0
    else CountIn(options[..|options| - 1], g) + (if options[|options| - 1].group == g then 1 else 0)
  }

  lemma CountInMore(options: seq<Choice>, o: Choice, g: Id)
    ensures CountIn(options + [o], g) == CountIn(options, g) + (if o.group == g then 1 else 0)
  {
    assert (options + [o])[..|options|] == options;
  }

  lemma {:induction false} CountedMean(cat: Catalog, chosen: seq<Chosen>, g: Id)
    requires Grouped(cat, chosen)
    ensures CountIn(CountedOptions(cat, chosen), g) == Picks(cat, chosen, g)
  {
    if chosen != [] {
      var c, most := chosen[|chosen| - 1], chosen[..|chosen| - 1];
      CountedMean(cat, most, g);
      CountInMore(CountedOptions(cat, most), c.option, g);
      assert CountedOptions(cat, most) + [] == CountedOptions(cat, most);
    }
  }

  /** `chosen`: options per group. */
  function CountDict(options: seq<Choice>): Dict<int> {
    if options == [] then Empty()
    else
      var d, g := CountDict(options[..|options| - 1]), options[|options| - 1].group;
      Put(d, g, Get(d, g, 0) + 1)
  }

  lemma {:induction false} CountDictMeans(options: seq<Choice>)
    ensures Ok(CountDict(options))
    ensures forall g :: Get(CountDict(options), g, 0) == CountIn(options, g)
    ensures forall g :: g in CountDict(options).at <==> CountIn(options, g) > 0
  {
    if options != [] {
      var most, g := options[..|options| - 1], options[|options| - 1].group;
      CountDictMeans(most);
      PutKeepsOk(CountDict(most), g, Get(CountDict(most), g, 0) + 1);
    }
  }

  datatype Kind = SeveralUnits | NotOffered | NotExactly | TooMany | TooFew | Missing | OverPerOption | OverTotal

  datatype Problem = Problem(group: Id, kind: Kind)

  predicate Names(problems: seq<Problem>, g: Id) {
    exists k | 0 <= k < |problems| :: problems[k].group == g
  }

  lemma NamesMore(problems: seq<Problem>, p: Problem)
    ensures forall g :: Names(problems + [p], g) <==> Names(problems, g) || p.group == g
  {
    forall g ensures Names(problems + [p], g) <==> Names(problems, g) || p.group == g {
      if Names(problems, g) {
        var k :| 0 <= k < |problems| && problems[k].group == g;
        assert (problems + [p])[k].group == g;
      }
      if p.group == g { assert (problems + [p])[|problems|].group == g; }
    }
  }

  /** What a choice in this group breaks whatever the flag says. */
  predicate BreaksHardRule(cat: Catalog, chosen: seq<Chosen>, g: Id)
    requires Grouped(cat, chosen)
  {
    exists k | 0 <= k < |chosen| ::
      chosen[k].option.group == g && !(OneUnit(cat, chosen[k]) && WithinCaps(cat, chosen, chosen[k]))
  }

  predicate AllBreak(cat: Catalog, chosen: seq<Chosen>, hard: seq<Problem>)
    requires Grouped(cat, chosen)
  {
    forall k | 0 <= k < |hard| :: BreaksHardRule(cat, chosen, hard[k].group)
  }

  /** A counted option with other than one unit. */
  predicate BreaksOneUnit(cat: Catalog, chosen: seq<Chosen>, g: Id)
    requires Grouped(cat, chosen)
  {
    exists k | 0 <= k < |chosen| :: chosen[k].option.group == g && !OneUnit(cat, chosen[k])
  }

  /** The complaints about units, in the order of the choices. */
  function UnitProblems(cat: Catalog, chosen: seq<Chosen>): seq<Problem>
    requires Grouped(cat, chosen)
  {
    if chosen == [] then []
    else
      var c := chosen[|chosen| - 1];
      UnitProblems(cat, chosen[..|chosen| - 1])
      + (if OneUnit(cat, c) then [] else [Problem(c.option.group, SeveralUnits)])
  }

  lemma {:induction false} UnitProblemsMean(cat: Catalog, chosen: seq<Chosen>)
    requires Grouped(cat, chosen)
    ensures UnitProblems(cat, chosen) == [] <==> forall k | 0 <= k < |chosen| :: OneUnit(cat, chosen[k])
    ensures forall p | p in UnitProblems(cat, chosen) :: BreaksOneUnit(cat, chosen, p.group)
  {
    if chosen != [] {
      var most, n := chosen[..|chosen| - 1], |chosen| - 1;
      UnitProblemsMean(cat, most);
      forall p | p in UnitProblems(cat, chosen) ensures BreaksOneUnit(cat, chosen, p.group) {
        if p in UnitProblems(cat, most) {
          var k :| 0 <= k < |most| && most[k].option.group == p.group && !OneUnit(cat, most[k]);
          assert chosen[k] == most[k];
        } else {
          assert chosen[n].option.group == p.group && !OneUnit(cat, chosen[n]);
        }
      }
      assert forall k | 0 <= k < n :: chosen[k] == most[k];
    }
  }

  /** The loop over the chosen options. */
  method Separate(cat: Catalog, chosen: seq<Chosen>)
    returns (counted: seq<Choice>, units: Dict<Dict<int>>, hard: seq<Problem>)
    requires Grouped(cat, chosen)
    ensures counted == CountedOptions(cat, chosen) && units == Tallies(cat, chosen)
    ensures hard == UnitProblems(cat, chosen)
  {
    counted, units, hard := [], Empty(), [];
    for n := 0 to |chosen|
      invariant counted == CountedOptions(cat, chosen[..n])
      invariant units == Tallies(cat, chosen[..n])
      invariant hard == UnitProblems(cat, chosen[..n])
    {
      var c := chosen[n];
      PrefixStep(cat, chosen, n);
      if cat.groups[c.option.group].mode == Quantified {
        units := AddTo(units, c.option.group, c.option.id, c.quantity);
      } else if c.quantity != 1 {
        hard := hard + [Problem(c.option.group, SeveralUnits)];
      } else {
        counted := counted + [c.option];
      }
    }
    assert chosen[..|chosen|] == chosen;
  }

  lemma PrefixStep(cat: Catalog, chosen: seq<Chosen>, n: nat)
    requires Grouped(cat, chosen) && n < |chosen|
    ensures var c := chosen[n];
            && CountedOptions(cat, chosen[..n + 1])
                 == CountedOptions(cat, chosen[..n]) + (if Counts(cat, c, c.option.group) then [c.option] else [])
            && Tallies(cat, chosen[..n + 1])
                 == (if cat.groups[c.option.group].mode == Quantified
                     then AddTo(Tallies(cat, chosen[..n]), c.option.group, c.option.id, c.quantity)
                     else Tallies(cat, chosen[..n]))
            && UnitProblems(cat, chosen[..n + 1])
                 == UnitProblems(cat, chosen[..n])
                    + (if OneUnit(cat, c) then [] else [Problem(c.option.group, SeveralUnits)])
  {
    assert chosen[..n + 1][..n] == chosen[..n];
  }

  /** What is wrong with the number of options picked in one group. */
  function CountProblem(cat: Catalog, links: seq<Link>, bounds: map<Id, Link>, g: Id, count: int): Option<Kind> {
    if g !in bounds then Some(NotOffered)
    else if DemandsMax(cat, links, g, bounds[g].lo) then (if count != bounds[g].hi then Some(NotExactly) else None)
    else if count > bounds[g].hi then Some(TooMany)
    else if count < bounds[g].lo then Some(TooFew)
    else None
  }

  lemma CountProblemMeans(cat: Catalog, links: seq<Link>, g: Id, count: nat)
    requires (forall l | l in links :: l.group in cat.groups) && count > 0
    ensures CountProblem(cat, links, Bounds(links), g, count).Some? <==> !CardinalityOk(cat, links, g, count)
  {
    BoundsDomain(links);
  }

  /** The loop over the groups in which something was picked. */
  method CheckPicked(cat: Catalog, links: seq<Link>, bounds: map<Id, Link>, counts: Dict<int>)
    returns (problems: seq<Problem>)
    requires (forall l | l in links :: l.group in cat.groups) && bounds == Bounds(links)
    requires Ok(counts) && forall g | g in counts.at :: counts.at[g] > 0
    ensures forall g :: Names(problems, g) <==> g in counts.at && !CardinalityOk(cat, links, g, counts.at[g])
  {
    problems := [];
    for n := 0 to |counts.keys|
      invariant forall g :: Names(problems, g) <==>
                  g in counts.keys[..n] && !CardinalityOk(cat, links, g, counts.at[g])
    {
      var g := counts.keys[n];
      var kind := CountProblem(cat, links, bounds, g, counts.at[g]);
      CountProblemMeans(cat, links, g, counts.at[g]);
      if kind.Some? {
        NamesMore(problems, Problem(g, kind.value));
        problems := problems + [Problem(g, kind.value)];
      }
      assert counts.keys[..n + 1] == counts.keys[..n] + [g];
    }
    assert counts.keys[..|counts.keys|] == counts.keys;
  }

  predicate IsMissing(cat: Catalog, links: seq<Link>, counts: Dict<int>, k: nat)
    requires k < |links| && forall l | l in links :: l.group in cat.groups
  {
    links[k].group !in counts.at && !CardinalityOk(cat, links, links[k].group, 0)
  }

  /** The two loops over cardinality. */
  method CheckCardinality(cat: Catalog, links: seq<Link>, counts: Dict<int>) returns (problems: seq<Problem>)
    requires forall l | l in links :: l.group in cat.groups
    requires Ok(counts) && forall g | g in counts.at :: counts.at[g] > 0
    ensures forall g :: Names(problems, g) <==> !CardinalityOk(cat, links, g, Get(counts, g, 0))
  {
    var bounds := Bounds(links);
    BoundsDomain(links);
    problems := CheckPicked(cat, links, bounds, counts);
    ghost var picked := problems;
    for n := 0 to |links|
      invariant forall g :: Names(problems, g) <==>
                  Names(picked, g) || exists k :: 0 <= k < n && links[k].group == g && IsMissing(cat, links, counts, k)
    {
      var g := links[n].group;
      assert IsMissing(cat, links, counts, n)
        <==> bounds[g].lo > 0 && g !in counts.at && cat.groups[g].mode != Quantified;
      if bounds[g].lo > 0 && g !in counts.at && cat.groups[g].mode != Quantified {
        NamesMore(problems, Problem(g, Missing));
        problems := problems + [Problem(g, Missing)];
      }
    }
    forall g ensures Names(problems, g) <==> !CardinalityOk(cat, links, g, Get(counts, g, 0)) {
      if g !in counts.at && g in bounds {
        var k :| 0 <= k < |links| && links[k].group == g;
        assert IsMissing(cat, links, counts, k) <==> !CardinalityOk(cat, links, g, 0);
      }
    }
  }

  predicate Capped(cat: Catalog, chosen: seq<Chosen>, g: Id)
    requires Grouped(cat, chosen) && g in cat.groups
  {
    && (cat.groups[g].maxPerOption.Some? ==>
          forall o | o in Of(Tallies(cat, chosen), g).at ::
            Of(Tallies(cat, chosen), g).at[o] <= cat.groups[g].maxPerOption.value)
    && (cat.groups[g].maxTotal.Some? ==> Sum(Of(Tallies(cat, chosen), g)) <= cat.groups[g].maxTotal.value)
  }

  lemma CappedMeans(cat: Catalog, chosen: seq<Chosen>, g: Id)
    requires Grouped(cat, chosen) && g in Tallies(cat, chosen).at
    ensures g in cat.groups
    ensures Capped(cat, chosen, g)
            <==> forall k | 0 <= k < |chosen| && chosen[k].option.group == g :: WithinCaps(cat, chosen, chosen[k])
    ensures !Capped(cat, chosen, g) ==> BreaksHardRule(cat, chosen, g)
  {
    var perOption := Of(Tallies(cat, chosen), g);
    TallyOk(cat, chosen, g);
    TalliesMean(cat, chosen, g);
    TalliesAreNotEmpty(cat, chosen, g);
    TallyComesFrom(cat, chosen, g, perOption.keys[0]);
    forall k | 0 <= k < |chosen| && chosen[k].option.group == g && Capped(cat, chosen, g)
      ensures WithinCaps(cat, chosen, chosen[k])
    {
      TalliesCover(cat, chosen, k);
      TalliesMeanUnits(cat, chosen, g, chosen[k].option.id);
    }
    if !Capped(cat, chosen, g) {
      var o := perOption.keys[0];
      var cap := cat.groups[g].maxPerOption;
      if p :| p in perOption.at && cap.Some? && perOption.at[p] > cap.value { o := p; }
      TallyComesFrom(cat, chosen, g, o);
      TalliesMeanUnits(cat, chosen, g, o);
      var k :| 0 <= k < |chosen| && Tallied(cat, chosen[k], g, o);
      assert !WithinCaps(cat, chosen, chosen[k]);
    }
  }

  /** The loop over the options of one quantified group. */
  method CheckOptions(perOption: Dict<int>, g: Id, cap: int) returns (hard: seq<Problem>)
    requires Ok(perOption)
    ensures hard == [] <==> forall o | o in perOption.at :: perOption.at[o] <= cap
    ensures forall k | 0 <= k < |hard| :: hard[k].group == g
  {
    hard := [];
    for m := 0 to |perOption.keys|
      invariant forall k | 0 <= k < |hard| :: hard[k].group == g
      invariant hard == [] <==> forall j | 0 <= j < m :: perOption.at[perOption.keys[j]] <= cap
    {
      if perOption.at[perOption.keys[m]] > cap { hard := hard + [Problem(g, OverPerOption)]; }
    }
  }

  /** The loop over the caps of quantified groups. */
  method CheckCaps(cat: Catalog, chosen: seq<Chosen>, units: Dict<Dict<int>>) returns (hard: seq<Problem>)
    requires Grouped(cat, chosen) && units == Tallies(cat, chosen)
    ensures hard == [] <==> forall k | 0 <= k < |chosen| :: WithinCaps(cat, chosen, chosen[k])
    ensures AllBreak(cat, chosen, hard)
  {
    hard := [];
    TalliesOk(cat, chosen);
    forall g | g in units.at ensures g in cat.groups { CappedMeans(cat, chosen, g); }
    for n := 0 to |units.keys|
      invariant AllBreak(cat, chosen, hard)
      invariant hard == [] <==> forall m | 0 <= m < n :: Capped(cat, chosen, units.keys[m])
    {
      var g := units.keys[n];
      var found := [];
      if cat.groups[g].maxPerOption.Some? {
        TallyOk(cat, chosen, g);
        assert Of(units, g) == units.at[g];
        found := CheckOptions(units.at[g], g, cat.groups[g].maxPerOption.value);
      }
      if cat.groups[g].maxTotal.Some? && Sum(units.at[g]) > cat.groups[g].maxTotal.value {
        found := found + [Problem(g, OverTotal)];
      }
      CappedMeans(cat, chosen, g);
      assert found == [] <==> Capped(cat, chosen, g);
      hard := hard + found;
    }
    forall k | 0 <= k < |chosen| && hard == [] ensures WithinCaps(cat, chosen, chosen[k]) {
      if cat.groups[chosen[k].option.group].mode == Quantified {
        TalliesCover(cat, chosen, k);
        CappedMeans(cat, chosen, chosen[k].option.group);
      }
    }
    if hard != [] {
      var m :| 0 <= m < |units.keys| && !Capped(cat, chosen, units.keys[m]);
      CappedMeans(cat, chosen, units.keys[m]);
    }
  }

  /** The loop that counts `conteo_options` by group. */
  method CountByGroup(counted: seq<Choice>) returns (counts: Dict<int>)
    ensures counts == CountDict(counted)
  {
    counts := Empty();
    for n := 0 to |counted|
      invariant counts == CountDict(counted[..n])
    {
      var g := counted[n].group;
      CountDictStep(counted, n);
      counts := Put(counts, g, Get(counts, g, 0) + 1);
    }
    assert counted[..|counted|] == counted;
  }

  lemma CountDictStep(counted: seq<Choice>, n: nat)
    requires n < |counted|
    ensures var d, g := CountDict(counted[..n]), counted[n].group;
            CountDict(counted[..n + 1]) == Put(d, g, Get(d, g, 0) + 1)
  {
    assert counted[..n + 1][..n] == counted[..n];
  }

  predicate BreaksSoftRule(cat: Catalog, links: seq<Link>, chosen: seq<Chosen>, g: Id)
    requires Consistent(cat, links, chosen)
  {
    !CardinalityOk(cat, links, g, Picks(cat, chosen, g))
  }

  /** `validate_option_selection`: no problems when it returns normally, else the
      problems it reports. */
  method ValidateOptionSelection(cat: Catalog, links: seq<Link>, chosen: seq<Chosen>, strict: bool)
    returns (reported: seq<Problem>)
    requires Consistent(cat, links, chosen)
    ensures reported == [] <==> Accepts(cat, links, chosen, strict)
    ensures forall p | p in reported ::
              BreaksHardRule(cat, chosen, p.group) || BreaksSoftRule(cat, links, chosen, p.group)
  {
    var counted, units, hard := Separate(cat, chosen);
    UnitProblemsMean(cat, chosen);
    var counts := CountByGroup(counted);
    var problems := CheckCounted(cat, links, chosen, counted, counts);
    var capProblems := CheckCaps(cat, chosen, units);
    hard := hard + capProblems;
    assert hard == [] <==> HardRules(cat, chosen);
    var consumen := Discounting(cat, links);
    var blocking := Among(problems, consumen);
    AmongMeans(problems, consumen);
    VerdictMeans(cat, links, chosen, strict, problems);
    if hard == [] && blocking == [] {
      return if strict then problems else [];
    }
    reported := hard + blocking;
  }

  /** The two cardinality loops, over the counted options of a selection. */
  method CheckCounted(cat: Catalog, links: seq<Link>, chosen: seq<Chosen>, counted: seq<Choice>, counts: Dict<int>)
    returns (problems: seq<Problem>)
    requires Consistent(cat, links, chosen)
    requires counted == CountedOptions(cat, chosen) && counts == CountDict(counted)
    ensures forall g :: Names(problems, g) <==> BreaksSoftRule(cat, links, chosen, g)
    ensures forall p | p in problems :: BreaksSoftRule(cat, links, chosen, p.group)
  {
    CountDictMeans(counted);
    forall g ensures Get(counts, g, 0) == Picks(cat, chosen, g) { CountedMean(cat, chosen, g); }
    problems := CheckCardinality(cat, links, counts);
    forall p | p in problems ensures BreaksSoftRule(cat, links, chosen, p.group) {
      var k :| 0 <= k < |problems| && problems[k] == p;
      assert Names(problems, p.group);
    }
  }

  /** What the problems of cardinality decide, under either flag. */
  lemma VerdictMeans(cat: Catalog, links: seq<Link>, chosen: seq<Chosen>, strict: bool, problems: seq<Problem>)
    requires Consistent(cat, links, chosen)
    requires forall g :: Names(problems, g) <==> BreaksSoftRule(cat, links, chosen, g)
    ensures Accepts(cat, links, chosen, strict)
            <==> && HardRules(cat, chosen) && Among(problems, Discounting(cat, links)) == []
                 && (strict ==> problems == [])
  {
    var blocking := Among(problems, Discounting(cat, links));
    AmongMeans(problems, Discounting(cat, links));
    if blocking == [] && (strict ==> problems == []) {
      forall g: Id | strict || g in Discounting(cat, links)
        ensures CardinalityOk(cat, links, g, Picks(cat, chosen, g))
      {
        assert !Names(problems, g);
      }
    } else if blocking != [] {
      var g :| g in Discounting(cat, links) && Names(problems, g);
      assert BreaksSoftRule(cat, links, chosen, g);
    } else {
      assert Names(problems, problems[0].group);
      assert BreaksSoftRule(cat, links, chosen, problems[0].group);
    }
  }

  /** `[p for p in problems if p[0] in consumen]` */
  function Among(problems: seq<Problem>, groups: set<Id>): seq<Problem> {
    if problems == [] then []
    else (if problems[0].group in groups then [problems[0]] else []) + Among(problems[1..], groups)
  }

  lemma {:induction false} AmongMeans(problems: seq<Problem>, groups: set<Id>)
    ensures forall p | p in Among(problems, groups) :: p in problems && p.group in groups
    ensures Among(problems, groups) == [] <==> forall g | g in groups :: !Names(problems, g)
  {
    if problems != [] {
      AmongMeans(problems[1..], groups);
      forall g | Names(problems[1..], g) ensures Names(problems, g) {
        var k :| 0 <= k < |problems[1..]| && problems[1..][k].group == g;
        assert problems[k + 1].group == g;
      }
      assert problems[0].group in groups ==> Names(problems, problems[0].group);
      forall g | Names(problems, g) && g != problems[0].group ensures Names(problems[1..], g) {
        var k :| 0 <= k < |problems| && problems[k].group == g;
        assert problems[1..][k - 1].group == g;
      }
    }
  }

  // -------------------------------------------------------------- loading options

  datatype Selection = Selection(option: Id, quantity: int)

  datatype Loaded =
    | Loaded(chosen: seq<Chosen>)
    | Repeated(option: Id)
    | NotFound(option: Id)
    | Inactive(option: Id)
    | Invalid(problems: seq<Problem>)

  /** Each option once, existing and active. */
  predicate Loadable(cat: Catalog, selections: seq<Selection>) {
    && (forall i, j | 0 <= i < j < |selections| :: selections[i].option != selections[j].option)
    && (forall i | 0 <= i < |selections| ::
          selections[i].option in cat.options && cat.options[selections[i].option].active)
  }

  function Picked(cat: Catalog, selections: seq<Selection>): (chosen: seq<Chosen>)
    requires forall i | 0 <= i < |selections| :: selections[i].option in cat.options
  {
    seq(|selections|, i requires 0 <= i < |selections| =>
      Chosen(cat.options[selections[i].option], selections[i].quantity, false))
  }

  /** `load_valid_options`: succeeds exactly for distinct, existing, active options
      that the variant, if one is given, accepts; one at a time otherwise. */
  method LoadValidOptions(cat: Catalog, variant: Option<seq<Link>>, selections: seq<Selection>, strict: bool)
    returns (r: Loaded)
    requires forall o | o in cat.options :: cat.options[o].group in cat.groups
    requires variant.Some? ==> forall l | l in variant.value :: l.group in cat.groups
    ensures r.Loaded? <==>
              (&& Loadable(cat, selections)
               && (variant.Some? ==> Accepts(cat, variant.value, Picked(cat, selections), strict)))
    ensures r.Loaded? ==> r.chosen == Picked(cat, selections)
    ensures r.Repeated? || r.NotFound? || r.Inactive? ==> !Loadable(cat, selections)
  {
    var seen, chosen := {}, [];
    for n := 0 to |selections|
      invariant Loadable(cat, selections[..n])
      invariant seen == set i | 0 <= i < n :: selections[i].option
      invariant chosen == Picked(cat, selections[..n])
    {
      var sel := selections[n];
      if sel.option in seen { return Repeated(sel.option); }
      seen := seen + {sel.option};
      if sel.option !in cat.options { return NotFound(sel.option); }
      var option := cat.options[sel.option];
      if !option.active { return Inactive(sel.option); }
      chosen := chosen + [Chosen(option, sel.quantity, false)];
    }
    assert selections[..|selections|] == selections;
    if variant.Some? {
      var problems := ValidateOptionSelection(cat, variant.value, chosen, strict);
      if problems != [] { return Invalid(problems); }
    }
    r := Loaded(chosen);
  }

  // ------------------------------------------------------------------ consequences

  /** The strict flag only ever rejects more, and nothing else hangs on it when
      every offered group moves stock. */
  lemma StrictIsStricter(cat: Catalog, links: seq<Link>, chosen: seq<Chosen>)
    requires Consistent(cat, links, chosen)
    ensures Accepts(cat, links, chosen, true) ==> Accepts(cat, links, chosen, false)
    ensures (forall k | 0 <= k < |chosen| :: chosen[k].option.group in Bounds(links))
            && (forall l | l in links :: l.group in Discounting(cat, links)) ==>
              (Accepts(cat, links, chosen, true) <==> Accepts(cat, links, chosen, false))
  {
    BoundsDomain(links);
    if (forall k | 0 <= k < |chosen| :: chosen[k].option.group in Bounds(links))
       && (forall l | l in links :: l.group in Discounting(cat, links)) && Accepts(cat, links, chosen, false) {
      forall g: Id ensures CardinalityOk(cat, links, g, Picks(cat, chosen, g)) {
        if g !in Bounds(links) { NoPicks(cat, chosen, g); }
      }
    }
  }

  lemma {:induction false} NoPicks(cat: Catalog, chosen: seq<Chosen>, g: Id)
    requires Grouped(cat, chosen) && forall k | 0 <= k < |chosen| :: chosen[k].option.group != g
    ensures Picks(cat, chosen, g) == 0
  {
    if chosen != [] { NoPicks(cat, chosen[..|chosen| - 1], g); }
  }

  // -------------------------------------- groups the variant does not offer

  /** The choices whose group the variant offers, or those whose group it does not. */
  function Part(links: seq<Link>, chosen: seq<Chosen>, offered: bool): (part: seq<Chosen>)
    ensures forall c | c in part :: c in chosen
  {
    if chosen == [] then []
    else
      var c := chosen[|chosen| - 1];
      Part(links, chosen[..|chosen| - 1], offered) + (if (c.option.group in Bounds(links)) == offered then [c] else [])
  }

  lemma {:induction false} PartMembers(links: seq<Link>, chosen: seq<Chosen>, offered: bool, c: Chosen)
    ensures c in Part(links, chosen, offered) <==> c in chosen && (c.option.group in Bounds(links)) == offered
  {
    if chosen != [] {
      PartMembers(links, chosen[..|chosen| - 1], offered, c);
      assert chosen == chosen[..|chosen| - 1] + [chosen[|chosen| - 1]];
    }
  }

  lemma PartGrouped(cat: Catalog, links: seq<Link>, chosen: seq<Chosen>, offered: bool)
    requires Grouped(cat, chosen)
    ensures Grouped(cat, Part(links, chosen, offered))
  {
    var part := Part(links, chosen, offered);
    forall k | 0 <= k < |part| ensures part[k].option.group in cat.groups { assert part[k] in chosen; }
  }

  /** A part holds all choices of its groups and none of the others. */
  lemma {:induction false} PartCounts(cat: Catalog, links: seq<Link>, chosen: seq<Chosen>, offered: bool, g: Id)
    requires Grouped(cat, chosen) && Grouped(cat, Part(links, chosen, offered))
    ensures var part, whole := Part(links, chosen, offered), (g in Bounds(links)) == offered;
            && Picks(cat, part, g) == (if whole then Picks(cat, chosen, g) else 0)
            && GroupUnits(cat, part, g) == (if whole then GroupUnits(cat, chosen, g) else 0)
  {
    if chosen != [] {
      var most, c := chosen[..|chosen| - 1], chosen[|chosen| - 1];
      PartGrouped(cat, links, most, offered);
      PartCounts(cat, links, most, offered, g);
      PartStep(links, chosen, offered);
    }
  }

  lemma PartStep(links: seq<Link>, chosen: seq<Chosen>, offered: bool)
    requires chosen != []
    ensures var most, c := Part(links, chosen[..|chosen| - 1], offered), chosen[|chosen| - 1];
            var part := Part(links, chosen, offered);
            if (c.option.group in Bounds(links)) == offered
            then part != [] && part[..|part| - 1] == most && part[|part| - 1] == c
            else part == most
  {
  }

  lemma {:induction false} PartUnits(cat: Catalog, links: seq<Link>, chosen: seq<Chosen>, offered: bool, g: Id, o: Id)
    requires Grouped(cat, chosen) && Grouped(cat, Part(links, chosen, offered)) && (g in Bounds(links)) == offered
    ensures Units(cat, Part(links, chosen, offered), g, o) == Units(cat, chosen, g, o)
  {
    if chosen != [] {
      PartGrouped(cat, links, chosen[..|chosen| - 1], offered);
      PartUnits(cat, links, chosen[..|chosen| - 1], offered, g, o);
      PartStep(links, chosen, offered);
    }
  }

  /** One choice keeps the hard rules among all choices as it does in its part. */
  predicate KeepsRules(cat: Catalog, chosen: seq<Chosen>, c: Chosen)
    requires Grouped(cat, chosen) && c.option.group in cat.groups
  {
    OneUnit(cat, c) && WithinCaps(cat, chosen, c)
  }

  lemma PartKeepsRules(cat: Catalog, links: seq<Link>, chosen: seq<Chosen>, offered: bool, c: Chosen)
    requires Grouped(cat, chosen) && Grouped(cat, Part(links, chosen, offered)) && c.option.group in cat.groups
    requires (c.option.group in Bounds(links)) == offered
    ensures KeepsRules(cat, Part(links, chosen, offered), c) <==> KeepsRules(cat, chosen, c)
  {
    PartCounts(cat, links, chosen, offered, c.option.group);
    PartUnits(cat, links, chosen, offered, c.option.group, c.option.id);
  }

  lemma HardRulesByMember(cat: Catalog, chosen: seq<Chosen>)
    requires Grouped(cat, chosen)
    ensures forall c | c in chosen :: c.option.group in cat.groups
    ensures HardRules(cat, chosen) <==> forall c | c in chosen :: KeepsRules(cat, chosen, c)
  {
    forall k | 0 <= k < |chosen| && (forall c | c in chosen :: KeepsRules(cat, chosen, c))
      ensures OneUnit(cat, chosen[k]) && WithinCaps(cat, chosen, chosen[k])
    {
      assert KeepsRules(cat, chosen, chosen[k]);
    }
  }

  lemma HardRulesByPart(cat: Catalog, links: seq<Link>, chosen: seq<Chosen>)
    requires Grouped(cat, chosen)
    ensures Grouped(cat, Part(links, chosen, true)) && Grouped(cat, Part(links, chosen, false))
    ensures HardRules(cat, chosen)
            <==> HardRules(cat, Part(links, chosen, true)) && HardRules(cat, Part(links, chosen, false))
  {
    HardRulesByMember(cat, chosen);
    PartGrouped(cat, links, chosen, true);
    PartGrouped(cat, links, chosen, false);
    HardRulesByMember(cat, Part(links, chosen, true));
    HardRulesByMember(cat, Part(links, chosen, false));
    forall c | c in chosen
      ensures var part := Part(links, chosen, c.option.group in Bounds(links));
              c in part && (KeepsRules(cat, chosen, c) <==> KeepsRules(cat, part, c))
    {
      PartMembers(links, chosen, c.option.group in Bounds(links), c);
      PartKeepsRules(cat, links, chosen, c.option.group in Bounds(links), c);
    }
    forall c, offered | c in Part(links, chosen, offered) ensures (c.option.group in Bounds(links)) == offered {
      PartMembers(links, chosen, offered, c);
    }
  }

  predicate AllQuantified(cat: Catalog, chosen: seq<Chosen>)
    requires Grouped(cat, chosen)
  {
    forall k | 0 <= k < |chosen| :: cat.groups[chosen[k].option.group].mode == Quantified
  }

  predicate NothingPickedIn(cat: Catalog, chosen: seq<Chosen>, g: Id)
    requires Grouped(cat, chosen)
  {
    Picks(cat, chosen, g) == 0
  }

  ghost predicate NothingPicked(cat: Catalog, chosen: seq<Chosen>)
    requires Grouped(cat, chosen)
  {
    forall g: Id :: NothingPickedIn(cat, chosen, g)
  }

  lemma {:induction false} QuantifiedPickNothing(cat: Catalog, chosen: seq<Chosen>, g: Id)
    requires Grouped(cat, chosen) && AllQuantified(cat, chosen)
    ensures NothingPickedIn(cat, chosen, g)
  {
    if chosen != [] { QuantifiedPickNothing(cat, chosen[..|chosen| - 1], g); }
  }

  lemma {:induction false} CountedArePicked(cat: Catalog, chosen: seq<Chosen>, k: nat)
    requires Grouped(cat, chosen) && k < |chosen| && Counts(cat, chosen[k], chosen[k].option.group)
    ensures !NothingPickedIn(cat, chosen, chosen[k].option.group)
  {
    if k < |chosen| - 1 { CountedArePicked(cat, chosen[..|chosen| - 1], k); }
  }

  /** With one unit per counted option, nothing is picked in any group exactly when
      every choice is of a quantified group. */
  lemma NothingPickedIff(cat: Catalog, chosen: seq<Chosen>)
    requires Grouped(cat, chosen) && forall k | 0 <= k < |chosen| :: OneUnit(cat, chosen[k])
    ensures NothingPicked(cat, chosen) <==> AllQuantified(cat, chosen)
  {
    if AllQuantified(cat, chosen) {
      forall g: Id ensures NothingPickedIn(cat, chosen, g) { QuantifiedPickNothing(cat, chosen, g); }
    } else {
      var k :| 0 <= k < |chosen| && cat.groups[chosen[k].option.group].mode != Quantified;
      assert OneUnit(cat, chosen[k]);
      CountedArePicked(cat, chosen, k);
    }
  }

  /** The cardinality rules that the flag leaves standing. */
  ghost predicate SoftRules(cat: Catalog, links: seq<Link>, chosen: seq<Chosen>, strict: bool)
    requires Consistent(cat, links, chosen)
  {
    forall g: Id :: SoftRule(cat, links, chosen, strict, g)
  }

  predicate SoftRule(cat: Catalog, links: seq<Link>, chosen: seq<Chosen>, strict: bool, g: Id)
    requires Consistent(cat, links, chosen)
  {
    strict || g in Discounting(cat, links) ==> CardinalityOk(cat, links, g, Picks(cat, chosen, g))
  }

  lemma AcceptsByRule(cat: Catalog, links: seq<Link>, chosen: seq<Chosen>, strict: bool)
    requires Consistent(cat, links, chosen)
    ensures Accepts(cat, links, chosen, strict) <==> HardRules(cat, chosen) && SoftRules(cat, links, chosen, strict)
  {
    if HardRules(cat, chosen) && SoftRules(cat, links, chosen, strict) {
      forall g: Id | strict || g in Discounting(cat, links)
        ensures CardinalityOk(cat, links, g, Picks(cat, chosen, g))
      {
        assert SoftRule(cat, links, chosen, strict, g);
      }
    }
  }

  lemma SoftRulesByPart(cat: Catalog, links: seq<Link>, chosen: seq<Chosen>, strict: bool)
    requires Consistent(cat, links, chosen)
    requires Grouped(cat, Part(links, chosen, true)) && Grouped(cat, Part(links, chosen, false))
    ensures SoftRules(cat, links, chosen, strict)
            <==> && SoftRules(cat, links, Part(links, chosen, true), strict)
                 && (strict ==> NothingPicked(cat, Part(links, chosen, false)))
  {
    var offered, other := Part(links, chosen, true), Part(links, chosen, false);
    forall g: Id
      ensures SoftRule(cat, links, chosen, strict, g)
              <==> SoftRule(cat, links, offered, strict, g) && (strict ==> NothingPickedIn(cat, other, g))
    {
      SoftRuleByPart(cat, links, chosen, strict, g);
    }
    if SoftRules(cat, links, chosen, strict) {
      forall g: Id ensures SoftRule(cat, links, offered, strict, g) { assert SoftRule(cat, links, chosen, strict, g); }
      forall g: Id ensures strict ==> NothingPickedIn(cat, other, g) { assert SoftRule(cat, links, chosen, strict, g); }
    } else {
      var g :| !SoftRule(cat, links, chosen, strict, g);
      assert !(SoftRule(cat, links, offered, strict, g) && (strict ==> NothingPickedIn(cat, other, g)));
    }
  }

  lemma SoftRuleByPart(cat: Catalog, links: seq<Link>, chosen: seq<Chosen>, strict: bool, g: Id)
    requires Consistent(cat, links, chosen)
    requires Grouped(cat, Part(links, chosen, true)) && Grouped(cat, Part(links, chosen, false))
    ensures SoftRule(cat, links, chosen, strict, g)
            <==> && SoftRule(cat, links, Part(links, chosen, true), strict, g)
                 && (strict ==> NothingPickedIn(cat, Part(links, chosen, false), g))
  {
    CardinalityByPart(cat, links, chosen, g);
  }

  lemma CardinalityByPart(cat: Catalog, links: seq<Link>, chosen: seq<Chosen>, g: Id)
    requires Consistent(cat, links, chosen)
    requires Grouped(cat, Part(links, chosen, true)) && Grouped(cat, Part(links, chosen, false))
    ensures CardinalityOk(cat, links, g, Picks(cat, chosen, g))
            <==> && CardinalityOk(cat, links, g, Picks(cat, Part(links, chosen, true), g))
                 && Picks(cat, Part(links, chosen, false), g) == 0
    ensures g in Discounting(cat, links) ==> Picks(cat, Part(links, chosen, false), g) == 0
  {
    BoundsDomain(links);
    PartCounts(cat, links, chosen, true, g);
    PartCounts(cat, links, chosen, false, g);
    if g in Discounting(cat, links) {
      DiscountingAgrees(cat, links, g);
      var k :| 0 <= k < |links| && links[k].group == g;
    }
  }

  /** A selection is accepted exactly when its offered part is, its other choices
      keep the hard rules among themselves, and these are all of quantified groups,
      unless the strict flag is off. So a choice of a group that the variant does
      not offer passes exactly within the caps of a quantified group, and with the
      flag off also, one unit at a time, in a counted group. */
  lemma AcceptsByPart(cat: Catalog, links: seq<Link>, chosen: seq<Chosen>, strict: bool)
    requires Consistent(cat, links, chosen)
    ensures Grouped(cat, Part(links, chosen, true)) && Grouped(cat, Part(links, chosen, false))
    ensures Accepts(cat, links, chosen, strict)
            <==> && Accepts(cat, links, Part(links, chosen, true), strict)
                 && HardRules(cat, Part(links, chosen, false))
                 && (strict ==> AllQuantified(cat, Part(links, chosen, false)))
  {
    HardRulesByPart(cat, links, chosen);
    AcceptsByRule(cat, links, chosen, strict);
    AcceptsByRule(cat, links, Part(links, chosen, true), strict);
    SoftRulesByPart(cat, links, chosen, strict);
    if HardRules(cat, Part(links, chosen, false)) { NothingPickedIff(cat, Part(links, chosen, false)); }
  }

  /** Which one choice of a group that is not offered can be added to an accepted
      selection. */
  lemma UnofferedChoiceIff(cat: Catalog, links: seq<Link>, chosen: seq<Chosen>, c: Chosen, strict: bool)
    requires Consistent(cat, links, chosen) && Consistent(cat, links, chosen + [c]) && c.option.group in cat.groups
    requires Accepts(cat, links, chosen, strict) && c.option.group !in Bounds(links)
    ensures Accepts(cat, links, chosen + [c], strict)
            <==> if cat.groups[c.option.group].mode == Quantified then WithinCaps(cat, chosen + [c], c)
                 else !strict && c.quantity == 1
  {
    var more := chosen + [c];
    assert more[..|more| - 1] == chosen;
    AcceptsByPart(cat, links, chosen, strict);
    AcceptsByPart(cat, links, more, strict);
    PartStep(links, more, true);
    PartStep(links, more, false);
    RulesWithOneMore(cat, links, chosen, c);
  }

  lemma RulesWithOneMore(cat: Catalog, links: seq<Link>, chosen: seq<Chosen>, c: Chosen)
    requires Grouped(cat, chosen) && Grouped(cat, chosen + [c])
    requires c.option.group in cat.groups && HardRules(cat, chosen)
    ensures HardRules(cat, chosen + [c]) <==> OneUnit(cat, c) && WithinCaps(cat, chosen + [c], c)
  {
    var more := chosen + [c];
    assert more[..|more| - 1] == chosen;
    assert c == more[|more| - 1];
    forall k | 0 <= k < |chosen| && WithinCaps(cat, more, c) ensures WithinCaps(cat, more, chosen[k]) {
      assert WithinCaps(cat, chosen, chosen[k]);
    }
    forall k | 0 <= k < |chosen| ensures more[k] == chosen[k] && OneUnit(cat, chosen[k]) {}
  }

  /** A counted group that matters, offered with a minimum and a maximum, one option
      at a time. Below the maximum every further pick is allowed. A pick can be
      dropped again when the minimum is zero, or when it is still reached; a
      mandatory group that moves stock allows neither, as it asks for exactly its
      maximum. */
  lemma OnePickMore(cat: Catalog, links: seq<Link>, chosen: seq<Chosen>, c: Chosen, l: Link, strict: bool)
    requires Consistent(cat, links, chosen) && Consistent(cat, links, chosen + [c])
    requires l in links && (forall k | k in links && k.group == l.group :: k == l)
    requires c.option.group == l.group && cat.groups[l.group].mode == Counted && c.quantity == 1
    requires strict || GroupDiscounts(cat, l)
    ensures Accepts(cat, links, chosen, strict)
            ==> (Accepts(cat, links, chosen + [c], strict) <==> Picks(cat, chosen, l.group) < l.hi)
    ensures Accepts(cat, links, chosen + [c], strict)
            ==> (Accepts(cat, links, chosen, strict)
                 <==> l.lo <= 0 || (!GroupDiscounts(cat, l) && l.lo <= Picks(cat, chosen, l.group)))
  {
    var more, g := chosen + [c], l.group;
    assert more[..|more| - 1] == chosen;
    BoundsDomain(links);
    assert g in Bounds(links) by {
      var k :| 0 <= k < |links| && links[k] == l;
      assert links[k].group == g;
    }
    assert Bounds(links)[g] == l;
    DiscountingAgrees(cat, links, g);
    RulesWithUncapped(cat, chosen, c);
    forall o: Id | o != g ensures Picks(cat, more, o) == Picks(cat, chosen, o) {}
    assert Picks(cat, more, g) == Picks(cat, chosen, g) + 1;
    PickedOnly(cat, links, chosen, c, strict);
  }

  /** A unit of a counted group leaves units and caps as they are. */
  lemma RulesWithUncapped(cat: Catalog, chosen: seq<Chosen>, c: Chosen)
    requires Grouped(cat, chosen) && Grouped(cat, chosen + [c])
    requires c.option.group in cat.groups && cat.groups[c.option.group].mode == Counted && c.quantity == 1
    ensures HardRules(cat, chosen + [c]) <==> HardRules(cat, chosen)
  {
    var more := chosen + [c];
    assert more[..|more| - 1] == chosen;
    assert c == more[|more| - 1];
    forall k | 0 <= k < |chosen|
      ensures more[k] == chosen[k] && (WithinCaps(cat, more, chosen[k]) <==> WithinCaps(cat, chosen, chosen[k]))
    {
    }
  }

  /** A pick of a counted group touches the cardinality of that group alone. */
  lemma PickedOnly(cat: Catalog, links: seq<Link>, chosen: seq<Chosen>, c: Chosen, strict: bool)
    requires Consistent(cat, links, chosen) && Consistent(cat, links, chosen + [c])
    requires forall g: Id | g != c.option.group :: Picks(cat, chosen + [c], g) == Picks(cat, chosen, g)
    requires HardRules(cat, chosen + [c]) <==> HardRules(cat, chosen)
    requires strict || c.option.group in Discounting(cat, links)
    ensures Accepts(cat, links, chosen, strict)
            && CardinalityOk(cat, links, c.option.group, Picks(cat, chosen + [c], c.option.group))
            ==> Accepts(cat, links, chosen + [c], strict)
    ensures Accepts(cat, links, chosen + [c], strict)
            && CardinalityOk(cat, links, c.option.group, Picks(cat, chosen, c.option.group))
            ==> Accepts(cat, links, chosen, strict)
  {
  }
}
