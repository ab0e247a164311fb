/**
 The price of a sold line. Amounts are whole cents (NUMERIC(12,2) times 100).
 Once-per-line options are charged as they are consumed: once, whatever the
 number of units.
 */
module Prices {
  import opened OptionSelection

  /** Extras of the options with the given once-per-line mark. */
  function Extras(chosen: seq<Chosen>, perLine: bool): int {
    if chosen == [] then 0
    else
      var c := chosen[|chosen| - 1];
      Extras(chosen[..|chosen| - 1], perLine) + if c.perLine == perLine then c.option.extraPrice * c.quantity else 0
  }

  /** `compute_unit_price` */
  method ComputeUnitPrice(price: int, chosen: seq<Chosen>) returns (r: int)
    ensures r == price + Extras(chosen, false)
  {
    r := price;
    for n := 0 to |chosen|
      invariant r == price + Extras(chosen[..n], false)
    {
      assert chosen[..n + 1][..n] == chosen[..n];
      if !chosen[n].perLine { r := r + chosen[n].option.extraPrice * chosen[n].quantity; }
    }
    assert chosen[..|chosen|] == chosen;
  }

  /** `compute_addons_total` */
  method ComputeAddonsTotal(chosen: seq<Chosen>) returns (r: int)
    ensures r == Extras(chosen, true)
  {
    r := 0;
    for n := 0 to |chosen|
      invariant r == Extras(chosen[..n], true)
    {
      assert chosen[..n + 1][..n] == chosen[..n];
      if chosen[n].perLine { r := r + chosen[n].option.extraPrice * chosen[n].quantity; }
    }
    assert chosen[..|chosen|] == chosen;
  }

  /** `line_total` of the two computed parts. */
  function LineTotal(price: int, chosen: seq<Chosen>, qty: int): int {
    TotalOf(price, Extras(chosen, false), Extras(chosen, true), qty)
  }

  function Unmarked(chosen: seq<Chosen>): seq<Chosen> {
    seq(|chosen|, i requires 0 <= i < |chosen| => chosen[i].(perLine := false))
  }

  lemma {:induction false} UnmarkedExtras(chosen: seq<Chosen>)
    ensures Extras(Unmarked(chosen), false) == Extras(chosen, false) + Extras(chosen, true)
    ensures Extras(Unmarked(chosen), true) == 0
  {
    if chosen != [] {
      var most := chosen[..|chosen| - 1];
      UnmarkedExtras(most);
      assert Unmarked(chosen)[..|chosen| - 1] == Unmarked(most);
    }
  }

  function TotalOf(price: int, extras: int, addons: int, qty: int): int { (price + extras) * qty + addons }

  lemma Distribute(price: int, extras: int, addons: int, all: int, none: int, qty: int)
    requires all == extras + addons && none == 0
    ensures TotalOf(price, all, none, qty) - TotalOf(price, extras, addons, qty) == addons * (qty - 1)
  {
    assert (price + extras + addons) * qty == (price + extras) * qty + addons * qty;
  }

  /** The mark saves the customer exactly the marked extras of all units but one;
      for a single unit the line costs what it always did. */
  lemma MarkSaves(price: int, chosen: seq<Chosen>, qty: int)
    ensures LineTotal(price, Unmarked(chosen), qty) - LineTotal(price, chosen, qty) == Extras(chosen, true) * (qty - 1)
  {
    UnmarkedExtras(chosen);
    Distribute(price, Extras(chosen, false), Extras(chosen, true),
               Extras(Unmarked(chosen), false), Extras(Unmarked(chosen), true), qty);
  }

  lemma MoreExtras(chosen: seq<Chosen>, c: Chosen, perLine: bool)
    ensures Extras(chosen + [c], perLine)
            == Extras(chosen, perLine) + if c.perLine == perLine then c.option.extraPrice * c.quantity else 0
  {
    assert (chosen + [c])[..|chosen|] == chosen;
  }

  lemma MoreTotal(price: int, extras: int, more: int, addons: int, qty: int)
    ensures TotalOf(price, extras + more, addons, qty) == TotalOf(price, extras, addons, qty) + qty * more
  {
    assert (price + extras + more) * qty == (price + extras) * qty + qty * more;
  }

  /** A line costs its price per unit, and each chosen option adds its extra as often as
      it was chosen: for every unit, or once if it is marked. */
  lemma OneMoreOptionCosts(price: int, chosen: seq<Chosen>, c: Chosen, qty: int)
    ensures LineTotal(price, [], qty) == price * qty
    ensures LineTotal(price, chosen + [c], qty) - LineTotal(price, chosen, qty)
            == (if c.perLine then 1 else qty) * (c.option.extraPrice * c.quantity)
  {
    MoreExtras(chosen, c, false);
    MoreExtras(chosen, c, true);
    var extra := c.option.extraPrice * c.quantity;
    if !c.perLine { MoreTotal(price, Extras(chosen, false), extra, Extras(chosen, true), qty); }
  }
}
