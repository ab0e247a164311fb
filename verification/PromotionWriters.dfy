/**
 The requests that write the rules of promotions, and what their interleavings
 leave for the downgrade of the migration. A rule is created with its products and
 replaced as a whole, never edited.
 */
module PromotionWriters {
  import opened Options
  import opened PromotionRules

  // ------------------------------------------------------------------- the payload

  datatype RuleIn = RuleIn(terms: Terms, products: seq<Id>)

  predicate Distinct(s: seq<Id>) { forall i, j | 0 <= i < j < |s| :: s[i] != s[j] }

  /** What the schema of the request lets through. */
  predicate Accepted(payload: seq<RuleIn>) {
    forall i | 0 <= i < |payload| :: payload[i].products != [] && Distinct(payload[i].products)
  }

  function Common(a: RuleIn, b: RuleIn): set<Id> { set x | x in a.products && x in b.products }

  predicate Disjoint(payload: seq<RuleIn>) {
    forall i, j | 0 <= i < j < |payload| :: Common(payload[i], payload[j]) == {}
  }

  datatype Pair = Pair(a: nat, b: nat)

  /** The pairs that are compared before the one of `a` and `b` share nothing. */
  predicate DisjointUpTo(payload: seq<RuleIn>, a: nat, b: nat) {
    forall i, j | 0 <= i < j < |payload| && (i < a || (i == a && j < b)) :: Common(payload[i], payload[j]) == {}
  }

  /** `_guard_no_shared_variants_within_payload` */
  method FindShared(payload: seq<RuleIn>) returns (found: Option<Pair>)
    ensures found.None? <==> Disjoint(payload)
    ensures found.Some? ==>
              var Pair(a, b) := found.value;
              a < b < |payload| && Common(payload[a], payload[b]) != {} && DisjointUpTo(payload, a, b)
  {
    for i := 0 to |payload|
      invariant DisjointUpTo(payload, i, 0)
    {
      for j := i + 1 to |payload|
        invariant DisjointUpTo(payload, i, j)
      {
        if Common(payload[i], payload[j]) != {} {
          return Some(Pair(i, j));
        }
      }
    }
    return None;
  }

  // ---------------------------------------------------------------------- its rows

  datatype Place = Place(rule: Id, product: Id)

  /** New rows of both tables, by their ids. */
  datatype Rows = Rows(rules: map<Id, Terms>, variants: map<Id, Place>)

  predicate Named(place: Place, payload: seq<RuleIn>, ids: seq<Id>)
    requires |ids| == |payload|
  {
    exists i | 0 <= i < |ids| :: place.rule == ids[i] && place.product in payload[i].products
  }

  predicate Placed(variants: map<Id, Place>, place: Place) { exists v | v in variants :: variants[v] == place }

  predicate AllNamed(variants: map<Id, Place>, payload: seq<RuleIn>, ids: seq<Id>)
    requires |ids| == |payload|
  {
    forall v {:trigger Named(variants[v], payload, ids)} | v in variants :: Named(variants[v], payload, ids)
  }

  predicate AllPlaced(variants: map<Id, Place>, payload: seq<RuleIn>, ids: seq<Id>)
    requires |ids| == |payload|
  {
    forall i, x {:trigger Placed(variants, Place(ids[i], x))} | 0 <= i < |ids| && x in payload[i].products ::
      Placed(variants, Place(ids[i], x))
  }

  predicate Once(variants: map<Id, Place>) {
    forall v, w | v in variants && w in variants && v != w :: variants[v] != variants[w]
  }

  /** The rows are those of the payload: a rule each, with the drawn ids, and a
      variant for each product of each, once. */
  ghost predicate Stands(rows: Rows, payload: seq<RuleIn>, ids: seq<Id>) {
    && |ids| == |payload| && Distinct(ids)
    && (forall i | 0 <= i < |ids| :: ids[i] in rows.rules && rows.rules[ids[i]] == payload[i].terms)
    && (forall r | r in rows.rules :: r in ids)
    && AllNamed(rows.variants, payload, ids) && AllPlaced(rows.variants, payload, ids) && Once(rows.variants)
  }

  lemma StartRule(rows: Rows, payload: seq<RuleIn>, ids: seq<Id>, r: Id, terms: Terms)
    requires Stands(rows, payload, ids) && r !in rows.rules
    ensures Stands(rows.(rules := rows.rules[r := terms]), payload + [RuleIn(terms, [])], ids + [r])
  {
    StillNamed(rows.variants, payload, ids, r, RuleIn(terms, []));
  }

  lemma StillNamed(variants: map<Id, Place>, payload: seq<RuleIn>, ids: seq<Id>, r: Id, last: RuleIn)
    requires |ids| == |payload| && AllNamed(variants, payload, ids)
    ensures AllNamed(variants, payload + [last], ids + [r])
  {
    var payload', ids' := payload + [last], ids + [r];
    forall v | v in variants ensures Named(variants[v], payload', ids') {
      assert Named(variants[v], payload, ids);
      var i :| 0 <= i < |ids| && variants[v].rule == ids[i] && variants[v].product in payload[i].products;
      assert ids'[i] == ids[i] && payload'[i] == payload[i];
    }
  }

  function More(rule: RuleIn, x: Id): RuleIn { rule.(products := rule.products + [x]) }

  lemma NamedMore(place: Place, payload: seq<RuleIn>, ids: seq<Id>, r: Id, last: RuleIn, x: Id)
    requires |ids| == |payload|
    ensures Named(place, payload + [last], ids + [r]) ==> Named(place, payload + [More(last, x)], ids + [r])
    ensures Named(Place(r, x), payload + [More(last, x)], ids + [r])
  {
    var before, after, ids' := payload + [last], payload + [More(last, x)], ids + [r];
    assert ids'[|ids|] == r && x in after[|ids|].products;
    if Named(place, before, ids') {
      var i :| 0 <= i < |ids'| && place.rule == ids'[i] && place.product in before[i].products;
      assert place.product in after[i].products;
    }
  }

  lemma PlacedMore(variants: map<Id, Place>, place: Place, v: Id, added: Place)
    requires v !in variants && (Placed(variants, place) || place == added)
    ensures Placed(variants[v := added], place)
  {
    if place == added {
      assert variants[v := added][v] == place;
    } else {
      var w :| w in variants && variants[w] == place;
      assert variants[v := added][w] == place;
    }
  }

  lemma NotNamed(place: Place, payload: seq<RuleIn>, ids: seq<Id>, r: Id, last: RuleIn)
    requires |ids| == |payload| && Distinct(ids + [r]) && place.rule == r && place.product !in last.products
    ensures !Named(place, payload + [last], ids + [r])
  {
    var ids' := ids + [r];
    assert ids'[|ids|] == r;
  }

  lemma MoreNamed(variants: map<Id, Place>, payload: seq<RuleIn>, ids: seq<Id>, r: Id, last: RuleIn, v: Id, x: Id)
    requires |ids| == |payload| && AllNamed(variants, payload + [last], ids + [r])
    ensures AllNamed(variants[v := Place(r, x)], payload + [More(last, x)], ids + [r])
  {
    var variants' := variants[v := Place(r, x)];
    forall w | w in variants' ensures Named(variants'[w], payload + [More(last, x)], ids + [r]) {
      NamedMore(variants'[w], payload, ids, r, last, x);
    }
  }

  lemma MorePlaced(variants: map<Id, Place>, payload: seq<RuleIn>, ids: seq<Id>, r: Id, last: RuleIn, v: Id, x: Id)
    requires |ids| == |payload| && AllPlaced(variants, payload + [last], ids + [r]) && v !in variants
    ensures AllPlaced(variants[v := Place(r, x)], payload + [More(last, x)], ids + [r])
  {
    var after, ids' := payload + [More(last, x)], ids + [r];
    forall i, y | 0 <= i < |ids'| && y in after[i].products
      ensures Placed(variants[v := Place(r, x)], Place(ids'[i], y))
    {
      PlacedMore(variants, Place(ids'[i], y), v, Place(r, x));
    }
  }

  lemma MoreOnce(variants: map<Id, Place>, payload: seq<RuleIn>, ids: seq<Id>, r: Id, last: RuleIn, v: Id, x: Id)
    requires |ids| == |payload| && AllNamed(variants, payload + [last], ids + [r])
    requires Once(variants) && Distinct(ids + [r]) && x !in last.products
    ensures Once(variants[v := Place(r, x)])
  {
    NotNamed(Place(r, x), payload, ids, r, last);
  }

  lemma AddPlace(rows: Rows, payload: seq<RuleIn>, ids: seq<Id>, r: Id, last: RuleIn, v: Id, x: Id)
    requires |ids| == |payload| && Stands(rows, payload + [last], ids + [r])
    requires v !in rows.variants && x !in last.products
    ensures Stands(rows.(variants := rows.variants[v := Place(r, x)]), payload + [More(last, x)], ids + [r])
  {
    MoreNamed(rows.variants, payload, ids, r, last, v, x);
    MorePlaced(rows.variants, payload, ids, r, last, v, x);
    MoreOnce(rows.variants, payload, ids, r, last, v, x);
  }

  predicate RowsClash(rows: Rows, v: Id, w: Id)
    requires v in rows.variants && w in rows.variants
  {
    rows.variants[v].rule != rows.variants[w].rule && rows.variants[v].product == rows.variants[w].product
  }

  /** Two rows of different rules are of different products. */
  predicate RowsDisjoint(rows: Rows) {
    forall v, w | v in rows.variants && w in rows.variants :: !RowsClash(rows, v, w)
  }

  /** The guard says it of the payload, before there are rows. */
  lemma GuardedRows(rows: Rows, payload: seq<RuleIn>, ids: seq<Id>)
    requires Stands(rows, payload, ids)
    ensures Disjoint(payload) <==> RowsDisjoint(rows)
  {
    if Disjoint(payload) { DisjointRows(rows, payload, ids); }
    if !Disjoint(payload) { SharedRows(rows, payload, ids); }
  }

  lemma DisjointRows(rows: Rows, payload: seq<RuleIn>, ids: seq<Id>)
    requires Stands(rows, payload, ids) && Disjoint(payload)
    ensures RowsDisjoint(rows)
  {
    forall v, w | v in rows.variants && w in rows.variants ensures !RowsClash(rows, v, w) {
      if rows.variants[v].rule != rows.variants[w].rule {
        NamedApart(rows.variants[v], rows.variants[w], payload, ids);
      }
    }
  }

  lemma NamedApart(a: Place, b: Place, payload: seq<RuleIn>, ids: seq<Id>)
    requires |ids| == |payload| && Named(a, payload, ids) && Named(b, payload, ids)
    requires Disjoint(payload) && a.rule != b.rule
    ensures a.product != b.product
  {
    var i :| 0 <= i < |ids| && a.rule == ids[i] && a.product in payload[i].products;
    var j :| 0 <= j < |ids| && b.rule == ids[j] && b.product in payload[j].products;
    var lo, hi := if i < j then i else j, if i < j then j else i;
    assert a.product !in Common(payload[lo], payload[hi]);
  }

  lemma SharedRows(rows: Rows, payload: seq<RuleIn>, ids: seq<Id>)
    requires Stands(rows, payload, ids) && !Disjoint(payload)
    ensures !RowsDisjoint(rows)
  {
    var i, j :| 0 <= i < j < |payload| && Common(payload[i], payload[j]) != {};
    var x :| x in Common(payload[i], payload[j]);
    assert Placed(rows.variants, Place(ids[i], x)) && Placed(rows.variants, Place(ids[j], x));
    var v :| v in rows.variants && rows.variants[v] == Place(ids[i], x);
    var w :| w in rows.variants && rows.variants[w] == Place(ids[j], x);
    assert RowsClash(rows, v, w);
  }

  // ----------------------------------------------------------------- what is written

  /** Random ids: those of new rows are not in use. */
  predicate Unused(db: Database, rows: Rows) {
    rows.rules.Keys !! db.rules.Keys && rows.variants.Keys !! db.variants.Keys
  }

  /** `_add_rules` */
  function Inserted(db: Database, p: Id, rows: Rows): Database {
    Database(db.promotions,
             map r | r in db.rules.Keys + rows.rules.Keys ::
               if r in rows.rules then Rule(p, rows.rules[r]) else db.rules[r],
             Overlaid(db.variants, rows.variants))
  }

  function Overlaid(variants: map<Id, Variant>, places: map<Id, Place>): map<Id, Variant> {
    map v | v in variants.Keys + places.Keys :: if v in places then PlacedRow(places[v]) else variants[v]
  }

  function PlacedRow(place: Place): Variant { Variant(None, Some(place.rule), place.product) }

  predicate BelongsTo(v: Variant, rules: set<Id>) { v.rule.Some? && v.rule.value in rules }

  /** Rules go with their variants, by ON DELETE CASCADE. */
  function Without(db: Database, gone: set<Id>): Database {
    Database(db.promotions, db.rules - gone,
             map v | v in db.variants && !BelongsTo(db.variants[v], gone) :: db.variants[v])
  }

  function Created(db: Database, p: Id, rows: Rows): Database {
    Inserted(db.(promotions := db.promotions[p := None]), p, rows)
  }

  /** `update_shape`, which deletes the rules that it read. */
  function Rewritten(db: Database, p: Id, read: set<Id>, rows: Rows): Database { Inserted(Without(db, read), p, rows) }

  function Deleted(db: Database, p: Id): Database {
    var rest := Without(db, RulesOf(db.rules, p));
    rest.(promotions := rest.promotions - {p})
  }

  /** A deleted product takes its rows along. */
  function Forgotten(db: Database, x: Id): Database {
    db.(variants := map v | v in db.variants && db.variants[v].product != x :: db.variants[v])
  }

  /** The rows copy the rules of a promotion: `of` says which is whose copy. */
  ghost predicate Copies(db: Database, source: Id, rows: Rows, of: map<Id, Id>) {
    && of.Keys == rows.rules.Keys && of.Values == RulesOf(db.rules, source)
    && (forall r, q | r in of && q in of && of[r] == of[q] :: r == q)
    && (forall r | r in of && of[r] in db.rules :: rows.rules[r] == db.rules[of[r]].terms)
    && (forall v | v in rows.variants ::
          rows.variants[v].rule in of && Copied(db, rows.variants[v], of[rows.variants[v].rule]))
    && (forall v, r | v in db.variants && r in of && db.variants[v].rule == Some(of[r]) ::
          Placed(rows.variants, Place(r, db.variants[v].product)))
    && Once(rows.variants)
  }

  predicate Copied(db: Database, place: Place, original: Id) {
    exists v | v in db.variants :: db.variants[v].rule == Some(original) && db.variants[v].product == place.product
  }

  // ------------------------------------------------------- what each write preserves

  /** The schema, with its constraints. */
  predicate Sound(db: Database) { Modern(db) && UniqueByRule(db.variants) }

  predicate Good(db: Database) { Sound(db) && RulesDisjoint(db) }

  /** Rows that refer to their own rules, none twice. */
  predicate Proper(rows: Rows) {
    && (forall v | v in rows.variants :: rows.variants[v].rule in rows.rules)
    && Once(rows.variants)
  }

  /** A row of a rule of the promotion has the product of a new row. */
  predicate Meets(db: Database, p: Id, v: Id, rows: Rows, w: Id)
    requires v in db.variants && w in rows.variants
  {
    && db.variants[v].rule.Some? && db.variants[v].rule.value in RulesOf(db.rules, p)
    && db.variants[v].product == rows.variants[w].product
  }

  predicate Free(db: Database, p: Id, rows: Rows) {
    forall v, w | v in db.variants && w in rows.variants :: !Meets(db, p, v, rows, w)
  }

  lemma NewVariants(db: Database, p: Id, rows: Rows)
    requires Unused(db, rows)
    ensures var after := Inserted(db, p, rows);
            && (forall v | v in db.variants :: v in after.variants && after.variants[v] == db.variants[v])
            && (forall v | v in rows.variants :: v in after.variants
                  && after.variants[v] == PlacedRow(rows.variants[v]))
            && (forall v | v in after.variants :: v in db.variants || v in rows.variants)
  {
  }

  lemma NewRulesOf(db: Database, p: Id, rows: Rows)
    requires Unused(db, rows)
    ensures var after := Inserted(db, p, rows);
            && (forall r | r in db.rules :: r in after.rules && after.rules[r] == db.rules[r])
            && (forall r | r in rows.rules :: r in after.rules && after.rules[r] == Rule(p, rows.rules[r]))
            && (forall r | r in after.rules :: r in db.rules || r in rows.rules)
  {
  }

  lemma InsertKeepsModern(db: Database, p: Id, rows: Rows)
    requires Modern(db) && p in db.promotions && Proper(rows) && Unused(db, rows)
    ensures Modern(Inserted(db, p, rows))
  {
    NewVariants(db, p, rows);
    NewRulesOf(db, p, rows);
  }

  lemma InsertKeepsUnique(db: Database, p: Id, rows: Rows)
    requires Sound(db) && p in db.promotions && Proper(rows) && Unused(db, rows)
    ensures UniqueByRule(Inserted(db, p, rows).variants)
  {
    NewVariants(db, p, rows);
    var after := Inserted(db, p, rows).variants;
    forall v, w | v in after && w in after && v != w && after[v].rule.Some?
      ensures after[v].rule != after[w].rule || after[v].product != after[w].product
    {
      if v in db.variants && w in rows.variants { assert after[v].rule.value in db.rules; }
      if v in rows.variants && w in db.variants { assert after[w].rule.value in db.rules; }
      if v in rows.variants && w in rows.variants { assert rows.variants[v] != rows.variants[w]; }
    }
  }

  /** New rows that may be inserted for a promotion. */
  predicate Insertable(db: Database, p: Id, rows: Rows) {
    Sound(db) && p in db.promotions && Proper(rows) && Unused(db, rows)
  }

  lemma OldClashes(db: Database, p: Id, rows: Rows, v: Id, w: Id)
    requires Insertable(db, p, rows) && Modern(Inserted(db, p, rows)) && v in db.variants && w in db.variants
    ensures Clash(Inserted(db, p, rows), v, w) <==> Clash(db, v, w)
  {
    NewVariants(db, p, rows);
    NewRulesOf(db, p, rows);
  }

  lemma NewClashes(db: Database, p: Id, rows: Rows, v: Id, w: Id)
    requires Insertable(db, p, rows) && Modern(Inserted(db, p, rows)) && v in rows.variants && w in rows.variants
    ensures Clash(Inserted(db, p, rows), v, w) <==> RowsClash(rows, v, w)
  {
    NewVariants(db, p, rows);
    NewRulesOf(db, p, rows);
  }

  lemma MixedClashes(db: Database, p: Id, rows: Rows, v: Id, w: Id)
    requires Insertable(db, p, rows) && Modern(Inserted(db, p, rows)) && v in db.variants && w in rows.variants
    ensures Clash(Inserted(db, p, rows), v, w) <==> Meets(db, p, v, rows, w)
    ensures Clash(Inserted(db, p, rows), w, v) <==> Meets(db, p, v, rows, w)
  {
    NewVariants(db, p, rows);
    NewRulesOf(db, p, rows);
  }

  lemma InsertIff(db: Database, p: Id, rows: Rows)
    requires Insertable(db, p, rows)
    ensures Sound(Inserted(db, p, rows))
    ensures RulesDisjoint(Inserted(db, p, rows)) <==> RulesDisjoint(db) && RowsDisjoint(rows) && Free(db, p, rows)
  {
    InsertKeepsModern(db, p, rows);
    InsertKeepsUnique(db, p, rows);
    if RulesDisjoint(db) && RowsDisjoint(rows) && Free(db, p, rows) { StaysDisjoint(db, p, rows); }
    if RulesDisjoint(Inserted(db, p, rows)) { WasDisjoint(db, p, rows); }
  }

  lemma StaysDisjoint(db: Database, p: Id, rows: Rows)
    requires Insertable(db, p, rows) && Modern(Inserted(db, p, rows))
    requires RulesDisjoint(db) && RowsDisjoint(rows) && Free(db, p, rows)
    ensures RulesDisjoint(Inserted(db, p, rows))
  {
    var after := Inserted(db, p, rows);
    NewVariants(db, p, rows);
    forall v, w | v in after.variants && w in after.variants ensures !Clash(after, v, w) {
      if v in db.variants {
        if w in db.variants { OldClashes(db, p, rows, v, w); } else { MixedClashes(db, p, rows, v, w); }
      } else if w in db.variants {
        MixedClashes(db, p, rows, w, v);
      } else {
        NewClashes(db, p, rows, v, w);
      }
    }
  }

  lemma WasDisjoint(db: Database, p: Id, rows: Rows)
    requires Insertable(db, p, rows) && Modern(Inserted(db, p, rows)) && RulesDisjoint(Inserted(db, p, rows))
    ensures RulesDisjoint(db) && RowsDisjoint(rows) && Free(db, p, rows)
  {
    NewVariants(db, p, rows);
    forall v, w | v in db.variants && w in db.variants ensures !Clash(db, v, w) { OldClashes(db, p, rows, v, w); }
    forall v, w | v in rows.variants && w in rows.variants ensures !RowsClash(rows, v, w) {
      NewClashes(db, p, rows, v, w);
    }
    forall v, w | v in db.variants && w in rows.variants ensures !Meets(db, p, v, rows, w) {
      MixedClashes(db, p, rows, v, w);
    }
  }

  lemma WithoutKeeps(db: Database, gone: set<Id>)
    requires Sound(db)
    ensures Sound(Without(db, gone))
    ensures RulesDisjoint(db) ==> RulesDisjoint(Without(db, gone))
  {
  }

  lemma DeletedKeeps(db: Database, p: Id)
    requires Good(db)
    ensures Good(Deleted(db, p))
  {
    WithoutKeeps(db, RulesOf(db.rules, p));
  }

  lemma ForgottenKeeps(db: Database, x: Id)
    requires Good(db)
    ensures Good(Forgotten(db, x))
  {
  }

  lemma CopiesAreDisjoint(db: Database, source: Id, rows: Rows, of: map<Id, Id>)
    requires Good(db) && Copies(db, source, rows, of)
    ensures Proper(rows) && RowsDisjoint(rows)
  {
    forall v, w | v in rows.variants && w in rows.variants ensures !RowsClash(rows, v, w) {
      CopiesApart(db, source, rows, of, v, w);
    }
  }

  lemma CopiesApart(db: Database, source: Id, rows: Rows, of: map<Id, Id>, v: Id, w: Id)
    requires Good(db) && Copies(db, source, rows, of) && v in rows.variants && w in rows.variants
    ensures !RowsClash(rows, v, w)
  {
    var a, b := rows.variants[v], rows.variants[w];
    assert of[a.rule] in RulesOf(db.rules, source) && of[b.rule] in RulesOf(db.rules, source);
    if a.rule != b.rule {
      var i :| i in db.variants && db.variants[i].rule == Some(of[a.rule]) && db.variants[i].product == a.product;
      var j :| j in db.variants && db.variants[j].rule == Some(of[b.rule]) && db.variants[j].product == b.product;
      assert !Clash(db, i, j);
    }
  }

  // -------------------------------------------------------------------------- runs

  datatype Form = Form(payload: seq<RuleIn>, ids: seq<Id>, rows: Rows)

  /** A request that the guard lets through, with the rows it would write. */
  ghost predicate Passes(form: Form) { Stands(form.rows, form.payload, form.ids) && Disjoint(form.payload) }

  lemma PassesIsProper(form: Form)
    requires Passes(form)
    ensures Proper(form.rows) && RowsDisjoint(form.rows)
  {
    GuardedRows(form.rows, form.payload, form.ids);
    forall v | v in form.rows.variants ensures form.rows.variants[v].rule in form.rows.rules {
      assert Named(form.rows.variants[v], form.payload, form.ids);
    }
  }

  datatype Reading = Reading(promotion: Id, rules: set<Id>)

  /** The committed rows, and what requests for a change of rules have read. */
  datatype World = World(db: Database, read: map<nat, Reading>)

  /** Commits, but for `Read`. Nothing is locked between a `Read` and its `Rewrite`. */
  datatype Step =
    | Create(p: Id, form: Form)
    | Read(who: nat, p: Id)
    | Rewrite(who: nat, form: Form)
    | Copy(source: Id, p: Id, rows: Rows, of: map<Id, Id>)
    | Delete(p: Id)
    | Forget(product: Id)

  ghost predicate CanStep(w: World, s: Step) {
    match s
    case Create(p, form) => p !in w.db.promotions && Passes(form) && Unused(w.db, form.rows)
    case Read(_, p) => p in w.db.promotions
    case Rewrite(who, form) =>
      who in w.read && w.read[who].promotion in w.db.promotions && Passes(form) && Unused(w.db, form.rows)
    case Copy(source, p, rows, of) =>
      source in w.db.promotions && p !in w.db.promotions && Copies(w.db, source, rows, of) && Unused(w.db, rows)
    case Delete(p) => p in w.db.promotions
    case Forget(_) => true
  }

  function After(w: World, s: Step): World {
    match s
    case Create(p, form) => w.(db := Created(w.db, p, form.rows))
    case Read(who, p) => w.(read := w.read[who := Reading(p, RulesOf(w.db.rules, p))])
    case Rewrite(who, form) =>
      if who in w.read
      then World(Rewritten(w.db, w.read[who].promotion, w.read[who].rules, form.rows), w.read - {who}) else w
    case Copy(source, p, rows, of) => w.(db := Created(w.db, p, rows))
    case Delete(p) => w.(db := Deleted(w.db, p))
    case Forget(product) => w.(db := Forgotten(w.db, product))
  }

  /** A change of rules finds no product of its payload in a rule that it did not
      read. */
  predicate Clear(w: World, s: Step) {
    s.Rewrite? && s.who in w.read ==>
      Free(Without(w.db, w.read[s.who].rules), w.read[s.who].promotion, s.form.rows)
  }

  lemma NewPromotionIsFree(db: Database, p: Id, rows: Rows)
    requires Good(db) && p !in db.promotions && Proper(rows) && RowsDisjoint(rows) && Unused(db, rows)
    ensures Good(Created(db, p, rows))
  {
    var db' := db.(promotions := db.promotions[p := None]);
    assert Good(db') by {
      forall v, w | v in db.variants && w in db.variants ensures Clash(db', v, w) <==> Clash(db, v, w) {}
    }
    assert Free(db', p, rows);
    InsertIff(db', p, rows);
  }

  lemma RewriteIff(db: Database, p: Id, read: set<Id>, form: Form)
    requires Good(db) && p in db.promotions && Passes(form) && Unused(db, form.rows)
    ensures Sound(Without(db, read)) && Sound(Rewritten(db, p, read, form.rows))
    ensures RulesDisjoint(Rewritten(db, p, read, form.rows)) <==> Free(Without(db, read), p, form.rows)
  {
    WithoutKeeps(db, read);
    PassesIsProper(form);
    InsertIff(Without(db, read), p, form.rows);
  }

  /** Only a change of rules that is not clear can break what the guard is for, and
      then it does. */
  lemma StepIff(w: World, s: Step)
    requires Good(w.db) && CanStep(w, s)
    ensures Sound(After(w, s).db) && (RulesDisjoint(After(w, s).db) <==> Clear(w, s))
  {
    match s {
      case Create(p, form) =>
        PassesIsProper(form);
        NewPromotionIsFree(w.db, p, form.rows);
      case Read(who, p) =>
      case Rewrite(who, form) => RewriteIff(w.db, w.read[who].promotion, w.read[who].rules, form);
      case Copy(source, p, rows, of) =>
        CopiesAreDisjoint(w.db, source, rows, of);
        NewPromotionIsFree(w.db, p, rows);
      case Delete(p) => DeletedKeeps(w.db, p);
      case Forget(product) => ForgottenKeeps(w.db, product);
    }
  }

  ghost predicate StepsTo(w: World, s: Step, w': World) { CanStep(w, s) && w' == After(w, s) }

  ghost predicate Run(worlds: seq<World>, steps: seq<Step>) {
    && |worlds| == |steps| + 1
    && forall i | 0 <= i < |steps| :: StepsTo(worlds[i], steps[i], worlds[i + 1])
  }

  /** The downgrade can put its constraint back. */
  ghost predicate Restorable(db: Database) { Modern(db) && UniqueByPromotion(Flattened(db).variants) }

  predicate AllClear(worlds: seq<World>, steps: seq<Step>, n: nat)
    requires n <= |steps| < |worlds|
  {
    forall i | 0 <= i < n :: Clear(worlds[i], steps[i])
  }

  ghost predicate AllRestorable(worlds: seq<World>, n: nat)
    requires n < |worlds|
  {
    forall i | 0 <= i <= n :: Restorable(worlds[i].db)
  }

  lemma GoodIsRestorable(db: Database)
    requires Sound(db)
    ensures Restorable(db) <==> Good(db)
  {
    DowngradeConstraintIff(db);
  }

  lemma {:induction false} RunUpTo(worlds: seq<World>, steps: seq<Step>, n: nat)
    requires Run(worlds, steps) && Good(worlds[0].db) && n <= |steps|
    ensures AllRestorable(worlds, n) <==> AllClear(worlds, steps, n)
    ensures AllClear(worlds, steps, n) ==> Good(worlds[n].db)
  {
    GoodIsRestorable(worlds[0].db);
    if n > 0 {
      RunUpTo(worlds, steps, n - 1);
      if AllClear(worlds, steps, n - 1) {
        assert StepsTo(worlds[n - 1], steps[n - 1], worlds[n]);
        StepIff(worlds[n - 1], steps[n - 1]);
        GoodIsRestorable(worlds[n].db);
      }
    }
  }

  /** In every run, the downgrade could put its constraint back at any time exactly
      when every change of rules was clear. */
  lemma AlwaysRestorableIff(worlds: seq<World>, steps: seq<Step>)
    requires Run(worlds, steps) && Good(worlds[0].db)
    ensures AllRestorable(worlds, |steps|) <==> AllClear(worlds, steps, |steps|)
  {
    RunUpTo(worlds, steps, |steps|);
  }

  /** Each change of rules writes right after it read. */
  predicate OneAfterAnother(steps: seq<Step>) {
    forall i | 0 <= i < |steps| && steps[i].Rewrite? ::
      0 < i && steps[i - 1].Read? && steps[i - 1].who == steps[i].who
  }

  lemma CurrentIsClear(w: World, s: Step)
    requires s.Rewrite? && s.who in w.read
    requires w.read[s.who].rules == RulesOf(w.db.rules, w.read[s.who].promotion)
    ensures Clear(w, s)
  {
  }

  /** So one after another the requests keep what the guard is for. */
  lemma SerialRunsAreRestorable(worlds: seq<World>, steps: seq<Step>)
    requires Run(worlds, steps) && Good(worlds[0].db) && OneAfterAnother(steps)
    ensures AllRestorable(worlds, |steps|)
  {
    forall i | 0 <= i < |steps| ensures Clear(worlds[i], steps[i]) {
      if steps[i].Rewrite? {
        assert StepsTo(worlds[i - 1], steps[i - 1], worlds[i]);
        CurrentIsClear(worlds[i], steps[i]);
      }
    }
    AlwaysRestorableIff(worlds, steps);
  }

  /** What the migration makes of a flat database with its constraint is where such
      runs start. */
  lemma MigratedIsGood(flat: Database, ruleOf: map<Id, Id>)
    requires Migrates(flat, ruleOf) && UniqueByPromotion(flat.variants)
    ensures Good(Dropped(Migrated(flat, ruleOf)))
  {
    var db := Dropped(Migrated(flat, ruleOf));
    MigratedIsModern(flat, ruleOf);
    UniquenessCarriesOver(flat, ruleOf);
    forall v, w | v in db.variants && w in db.variants ensures !Clash(db, v, w) {
      OneRuleEach(flat, ruleOf, flat.variants[v].promotion.value);
      OneRuleEach(flat, ruleOf, flat.variants[w].promotion.value);
    }
  }

  // ------------------------------------------------------------------- two at a time

  predicate Apart(a: Rows, b: Rows) { a.rules.Keys !! b.rules.Keys && a.variants.Keys !! b.variants.Keys }

  predicate ShareNothing(a: Rows, b: Rows) {
    forall v, w | v in a.variants && w in b.variants :: a.variants[v].product != b.variants[w].product
  }

  /** Two requests for one promotion, with new ids. */
  ghost predicate Rivals(db: Database, p: Id, first: Form, second: Form) {
    && Good(db) && p in db.promotions && Passes(first) && Passes(second)
    && Unused(db, first.rows) && Unused(db, second.rows) && Apart(first.rows, second.rows)
  }

  /** After the first of them committed. */
  function Between(db: Database, p: Id, rows: Rows): Database { Rewritten(db, p, RulesOf(db.rules, p), rows) }

  /** After the second, which read the same rules. */
  function Beyond(db: Database, p: Id, a: Rows, b: Rows): Database {
    Rewritten(Between(db, p, a), p, RulesOf(db.rules, p), b)
  }

  lemma FirstIsGood(db: Database, p: Id, first: Form, second: Form)
    requires Rivals(db, p, first, second)
    ensures var mid := Between(db, p, first.rows);
            Good(mid) && p in mid.promotions && Unused(mid, second.rows)
  {
    RewriteIff(db, p, RulesOf(db.rules, p), first);
  }

  /** What the second does not delete: the rules of the first. */
  lemma FirstRulesStay(db: Database, p: Id, rows: Rows)
    requires Unused(db, rows)
    ensures RulesOf(Without(Between(db, p, rows), RulesOf(db.rules, p)).rules, p) == rows.rules.Keys
  {
    var gone := RulesOf(db.rules, p);
    NewRulesOf(Without(db, gone), p, rows);
    var rest := Without(Between(db, p, rows), gone).rules;
    forall r ensures r in RulesOf(rest, p) <==> r in rows.rules {
      if r in rest && r !in rows.rules { assert r in db.rules && rest[r] == db.rules[r]; }
    }
  }

  lemma FirstVariantsStay(db: Database, p: Id, rows: Rows)
    requires Modern(db) && Unused(db, rows) && Proper(rows)
    ensures var gone := RulesOf(db.rules, p);
            var rest := Without(Between(db, p, rows), gone);
            && (forall v | v in rows.variants :: v in rest.variants && rest.variants[v] == PlacedRow(rows.variants[v]))
            && (forall v | v in rest.variants && v !in rows.variants ::
                  rest.variants[v].rule.Some? && rest.variants[v].rule.value in db.rules.Keys - gone)
  {
    var gone := RulesOf(db.rules, p);
    var mid := Between(db, p, rows).variants;
    NewVariants(Without(db, gone), p, rows);
    forall v | v in rows.variants ensures !BelongsTo(mid[v], gone) {}
    forall v | v in mid && v !in rows.variants ensures v in db.variants && mid[v] == db.variants[v] {}
  }

  lemma MeetsFirst(db: Database, p: Id, a: Rows, b: Rows, v: Id, w: Id)
    requires Modern(db) && Unused(db, a) && Proper(a)
    requires v in Without(Between(db, p, a), RulesOf(db.rules, p)).variants && w in b.variants
    ensures Meets(Without(Between(db, p, a), RulesOf(db.rules, p)), p, v, b, w)
            <==> v in a.variants && a.variants[v].product == b.variants[w].product
  {
    FirstRulesStay(db, p, a);
    FirstVariantsStay(db, p, a);
  }

  lemma FreeOfFirst(db: Database, p: Id, a: Rows, b: Rows)
    requires Modern(db) && Unused(db, a) && Proper(a)
    ensures Free(Without(Between(db, p, a), RulesOf(db.rules, p)), p, b) <==> ShareNothing(a, b)
  {
    var rest := Without(Between(db, p, a), RulesOf(db.rules, p));
    forall v, w | v in rest.variants && w in b.variants
      ensures Meets(rest, p, v, b, w) <==> v in a.variants && a.variants[v].product == b.variants[w].product
    {
      MeetsFirst(db, p, a, b, v, w);
    }
    forall v | v in a.variants ensures v in rest.variants { FirstVariantsStay(db, p, a); }
    FreeIff(rest, p, a, b);
  }

  lemma FreeIff(rest: Database, p: Id, a: Rows, b: Rows)
    requires forall v | v in a.variants :: v in rest.variants
    requires forall v, w | v in rest.variants && w in b.variants ::
               Meets(rest, p, v, b, w) <==> v in a.variants && a.variants[v].product == b.variants[w].product
    ensures Free(rest, p, b) <==> ShareNothing(a, b)
  {
    if Free(rest, p, b) {
      forall v, w | v in a.variants && w in b.variants ensures a.variants[v].product != b.variants[w].product {
        assert !Meets(rest, p, v, b, w);
      }
    }
  }

  /** The schema holds and the rules of both are there. */
  ghost predicate Ended(db: Database, p: Id, a: Rows, b: Rows) {
    Sound(db) && RulesOf(db.rules, p) == a.rules.Keys + b.rules.Keys && (Restorable(db) <==> ShareNothing(a, b))
  }

  lemma BothStay(db: Database, p: Id, first: Form, second: Form)
    requires Rivals(db, p, first, second)
    ensures Ended(Beyond(db, p, first.rows, second.rows), p, first.rows, second.rows)
  {
    PassesIsProper(first);
    FirstIsGood(db, p, first, second);
    FreeOfFirst(db, p, first.rows, second.rows);
    RewriteIff(Between(db, p, first.rows), p, RulesOf(db.rules, p), second);
    GoodIsRestorable(Beyond(db, p, first.rows, second.rows));
    RulesOfBoth(db, p, first.rows, second.rows);
  }

  lemma RulesOfBoth(db: Database, p: Id, a: Rows, b: Rows)
    requires Modern(db) && Unused(db, a) && Proper(a) && Unused(Between(db, p, a), b)
    ensures RulesOf(Beyond(db, p, a, b).rules, p) == a.rules.Keys + b.rules.Keys
  {
    var rest := Without(Between(db, p, a), RulesOf(db.rules, p));
    FirstRulesStay(db, p, a);
    NewRulesOf(rest, p, b);
    assert forall r :: r in RulesOf(rest.rules, p) <==> r in a.rules;
  }

  /** Both read the rules of the promotion before either commits. */
  function RivalStep(p: Id, first: Form, second: Form, i: nat): Step {
    match i
    case 0 => Read(1, p)
    case 1 => Read(2, p)
    case 2 => Rewrite(1, first)
    case _ => Rewrite(2, second)
  }

  function RivalWorld(w: World, p: Id, a: Rows, b: Rows, i: nat): World {
    var r := Reading(p, RulesOf(w.db.rules, p));
    match i
    case 0 => w
    case 1 => World(w.db, w.read[1 := r])
    case 2 => World(w.db, w.read[1 := r][2 := r])
    case 3 => World(Between(w.db, p, a), w.read[1 := r][2 := r] - {1})
    case _ => World(Beyond(w.db, p, a, b), w.read[1 := r][2 := r] - {1} - {2})
  }

  lemma RivalHappens(w: World, p: Id, first: Form, second: Form, i: nat)
    requires i < 4 && p in w.db.promotions && Passes(first) && Passes(second)
    requires Unused(w.db, first.rows) && Unused(Between(w.db, p, first.rows), second.rows)
    ensures StepsTo(RivalWorld(w, p, first.rows, second.rows, i), RivalStep(p, first, second, i),
                    RivalWorld(w, p, first.rows, second.rows, i + 1))
  {
    match i {
      case 0 =>
      case 1 =>
      case 2 =>
      case _ =>
    }
  }

  /** The second deletes the rules that it read and not those of the first, so both
      payloads stay, and the downgrade can put its constraint back exactly when they
      share no product: whatever the promotion was, and although both pass the guard. */
  lemma TwoChangesCollideIff(w: World, p: Id, first: Form, second: Form) returns (worlds: seq<World>, steps: seq<Step>)
    requires Rivals(w.db, p, first, second)
    ensures Run(worlds, steps) && |steps| == 4 && worlds[0] == w
    ensures steps == [Read(1, p), Read(2, p), Rewrite(1, first), Rewrite(2, second)]
    ensures Ended(worlds[4].db, p, first.rows, second.rows)
  {
    BothStay(w.db, p, first, second);
    FirstIsGood(w.db, p, first, second);
    worlds, steps := RivalRun(w, p, first, second);
  }

  lemma RivalRun(w: World, p: Id, first: Form, second: Form) returns (worlds: seq<World>, steps: seq<Step>)
    requires p in w.db.promotions && Passes(first) && Passes(second)
    requires Unused(w.db, first.rows) && Unused(Between(w.db, p, first.rows), second.rows)
    ensures Run(worlds, steps) && |steps| == 4 && worlds[0] == w
    ensures steps == [Read(1, p), Read(2, p), Rewrite(1, first), Rewrite(2, second)]
    ensures worlds[4].db == Beyond(w.db, p, first.rows, second.rows)
  {
    worlds := seq(5, (i: nat) => RivalWorld(w, p, first.rows, second.rows, i));
    steps := seq(4, (i: nat) => RivalStep(p, first, second, i));
    forall i | 0 <= i < 4 ensures StepsTo(worlds[i], steps[i], worlds[i + 1]) {
      RivalHappens(w, p, first, second, i);
    }
  }

  lemma SamePayloadShares(first: Form, second: Form)
    requires Passes(first) && Passes(second)
    requires first.payload == second.payload != [] && Accepted(first.payload)
    ensures !ShareNothing(first.rows, second.rows)
  {
    var x := first.payload[0].products[0];
    HasProduct(first, x);
    HasProduct(second, x);
  }

  lemma HasProduct(form: Form, x: Id)
    requires Passes(form) && form.payload != [] && x in form.payload[0].products
    ensures exists v | v in form.rows.variants :: form.rows.variants[v].product == x
  {
    assert Placed(form.rows.variants, Place(form.ids[0], x));
    var v :| v in form.rows.variants && form.rows.variants[v] == Place(form.ids[0], x);
  }

  /** One payload sent twice is enough, if the second request reads before the first
      commits. */
  lemma SentTwiceCollides(w: World, p: Id, first: Form, second: Form) returns (worlds: seq<World>, steps: seq<Step>)
    requires Rivals(w.db, p, first, second)
    requires first.payload == second.payload != [] && Accepted(first.payload)
    ensures Run(worlds, steps) && worlds[0] == w && |steps| == 4
    ensures Sound(worlds[4].db) && !Restorable(worlds[4].db)
  {
    SamePayloadShares(first, second);
    worlds, steps := TwoChangesCollideIff(w, p, first, second);
  }

  // ------------------------------------------------------------------- as they run

  datatype Outcome = Done | NotEditable | SharedVariants(a: nat, b: nat, common: set<Id>) | NotInCatalog | Refused

  predicate InCatalog(rule: RuleIn, catalog: set<Id>) { forall x | x in rule.products :: x in catalog }

  predicate AllInCatalog(payload: seq<RuleIn>, catalog: set<Id>) {
    forall i | 0 <= i < |payload| :: InCatalog(payload[i], catalog)
  }

  /** What stops a payload, in the order in which it is looked at: `allowed` is what
      the guards of prices and of other promotions say of the rows. */
  predicate Judged(payload: seq<RuleIn>, catalog: set<Id>, allowed: bool, outcome: Outcome) {
    match outcome
    case Done => Disjoint(payload) && AllInCatalog(payload, catalog) && allowed
    case NotEditable => false
    case SharedVariants(a, b, common) =>
      a < b < |payload| && common == Common(payload[a], payload[b]) != {} && DisjointUpTo(payload, a, b)
    case NotInCatalog => Disjoint(payload) && !AllInCatalog(payload, catalog)
    case Refused => Disjoint(payload) && AllInCatalog(payload, catalog) && !allowed
  }

  predicate Below(db: Database, next: Id) {
    && (forall p | p in db.promotions :: p < next)
    && (forall r | r in db.rules :: r < next) && (forall v | v in db.variants :: v < next)
  }

  predicate DrawnSince(rows: Rows, start: Id, next: Id) {
    (forall r | r in rows.rules :: start <= r < next) && (forall v | v in rows.variants :: start <= v < next)
  }

  // Ids are drawn in order, so the rows of a payload are known from where it starts:
  // as written to the database, and by themselves.

  function PutPlaces(variants: map<Id, Variant>, r: Id, products: seq<Id>, next: Id): map<Id, Variant> {
    if products == [] then variants
    else
      var n := |products| - 1;
      PutPlaces(variants, r, products[..n], next)[next + n := PlacedRow(Place(r, products[n]))]
  }

  function PutRule(db: Database, p: Id, rule: RuleIn, next: Id): Database {
    db.(rules := db.rules[next := Rule(p, rule.terms)],
        variants := PutPlaces(db.variants, next, rule.products, next + 1))
  }

  function NextAfter(payload: seq<RuleIn>, start: Id): Id {
    if payload == [] then start
    else
      var n := |payload| - 1;
      NextAfter(payload[..n], start) + 1 + |payload[n].products|
  }

  function PutRules(db: Database, p: Id, payload: seq<RuleIn>, start: Id): Database {
    if payload == [] then db
    else
      var n := |payload| - 1;
      PutRule(PutRules(db, p, payload[..n], start), p, payload[n], NextAfter(payload[..n], start))
  }

  function RowPlaces(places: map<Id, Place>, r: Id, products: seq<Id>, next: Id): map<Id, Place> {
    if products == [] then places
    else
      var n := |products| - 1;
      RowPlaces(places, r, products[..n], next)[next + n := Place(r, products[n])]
  }

  function RowRule(rows: Rows, rule: RuleIn, next: Id): Rows {
    Rows(rows.rules[next := rule.terms], RowPlaces(rows.variants, next, rule.products, next + 1))
  }

  function RowsFrom(payload: seq<RuleIn>, start: Id): Rows {
    if payload == [] then Rows(map[], map[])
    else
      var n := |payload| - 1;
      RowRule(RowsFrom(payload[..n], start), payload[n], NextAfter(payload[..n], start))
  }

  function IdsFrom(payload: seq<RuleIn>, start: Id): seq<Id> {
    if payload == [] then []
    else IdsFrom(payload[..|payload| - 1], start) + [NextAfter(payload[..|payload| - 1], start)]
  }

  function FormFrom(payload: seq<RuleIn>, start: Id): Form {
    Form(payload, IdsFrom(payload, start), RowsFrom(payload, start))
  }

  predicate Overlays(m: map<Id, Variant>, variants: map<Id, Variant>, places: map<Id, Place>) {
    && m.Keys == variants.Keys + places.Keys
    && forall v | v in m :: m[v] == if v in places then PlacedRow(places[v]) else variants[v]
  }

  lemma {:induction false} PlacesAreOverlaid(
    m: map<Id, Variant>, variants: map<Id, Variant>, places: map<Id, Place>, r: Id, products: seq<Id>, next: Id)
    requires Overlays(m, variants, places)
    ensures Overlays(PutPlaces(m, r, products, next), variants, RowPlaces(places, r, products, next))
  {
    if products != [] { PlacesAreOverlaid(m, variants, places, r, products[..|products| - 1], next); }
  }

  lemma OverlayIs(m: map<Id, Variant>, variants: map<Id, Variant>, places: map<Id, Place>)
    requires Overlays(m, variants, places)
    ensures m == Overlaid(variants, places)
  {
  }

  lemma RuleIsInserted(db: Database, p: Id, rows: Rows, rule: RuleIn, next: Id)
    ensures PutRule(Inserted(db, p, rows), p, rule, next) == Inserted(db, p, RowRule(rows, rule, next))
  {
    var before, after := Inserted(db, p, rows), Inserted(db, p, RowRule(rows, rule, next));
    assert before.rules[next := Rule(p, rule.terms)] == after.rules;
    PlacesAreOverlaid(before.variants, db.variants, rows.variants, next, rule.products, next + 1);
    OverlayIs(PutPlaces(before.variants, next, rule.products, next + 1), db.variants,
              RowPlaces(rows.variants, next, rule.products, next + 1));
  }

  lemma InsertedNothing(db: Database, p: Id)
    ensures Inserted(db, p, Rows(map[], map[])) == db
  {
  }

  lemma {:induction false} RulesAreInserted(db: Database, p: Id, payload: seq<RuleIn>, start: Id)
    ensures PutRules(db, p, payload, start) == Inserted(db, p, RowsFrom(payload, start))
  {
    if payload == [] {
      InsertedNothing(db, p);
    } else {
      var n := |payload| - 1;
      RulesAreInserted(db, p, payload[..n], start);
      RuleIsInserted(db, p, RowsFrom(payload[..n], start), payload[n], NextAfter(payload[..n], start));
    }
  }

  lemma {:induction false} PlacesAreBelow(variants: map<Id, Variant>, r: Id, products: seq<Id>, next: Id)
    requires forall v | v in variants :: v < next
    ensures forall v | v in PutPlaces(variants, r, products, next) :: v < next + |products|
  {
    if products != [] { PlacesAreBelow(variants, r, products[..|products| - 1], next); }
  }

  lemma {:induction false} RulesAreBelow(db: Database, p: Id, payload: seq<RuleIn>, start: Id)
    requires Below(db, start)
    ensures start <= NextAfter(payload, start) && Below(PutRules(db, p, payload, start), NextAfter(payload, start))
  {
    if payload != [] {
      var n := |payload| - 1;
      var next := NextAfter(payload[..n], start);
      RulesAreBelow(db, p, payload[..n], start);
      PlacesAreBelow(PutRules(db, p, payload[..n], start).variants, next, payload[n].products, next + 1);
    }
  }

  lemma {:induction false} PlacesAreDrawn(places: map<Id, Place>, r: Id, products: seq<Id>, start: Id, next: Id)
    requires start <= next && forall v | v in places :: start <= v < next
    ensures forall v | v in RowPlaces(places, r, products, next) :: start <= v < next + |products|
  {
    if products != [] { PlacesAreDrawn(places, r, products[..|products| - 1], start, next); }
  }

  lemma {:induction false} RowsAreDrawn(payload: seq<RuleIn>, start: Id)
    ensures start <= NextAfter(payload, start)
    ensures DrawnSince(RowsFrom(payload, start), start, NextAfter(payload, start))
  {
    if payload != [] {
      var n := |payload| - 1;
      var next := NextAfter(payload[..n], start);
      RowsAreDrawn(payload[..n], start);
      PlacesAreDrawn(RowsFrom(payload[..n], start).variants, next, payload[n].products, start, next + 1);
    }
  }

  lemma {:induction false} PlacesStand(rows: Rows, payload: seq<RuleIn>, ids: seq<Id>, r: Id, terms: Terms,
                                       products: seq<Id>, start: Id, next: Id)
    requires |ids| == |payload| && Stands(rows, payload + [RuleIn(terms, [])], ids + [r])
    requires start <= next && Distinct(products) && forall v | v in rows.variants :: start <= v < next
    ensures Stands(rows.(variants := RowPlaces(rows.variants, r, products, next)),
                   payload + [RuleIn(terms, products)], ids + [r])
  {
    if products == [] {
      assert rows.(variants := rows.variants) == rows;
    } else {
      var n := |products| - 1;
      PlacesStand(rows, payload, ids, r, terms, products[..n], start, next);
      PlacesAreDrawn(rows.variants, r, products[..n], start, next);
      AddPlace(rows.(variants := RowPlaces(rows.variants, r, products[..n], next)), payload, ids, r,
               RuleIn(terms, products[..n]), next + n, products[n]);
      assert products[..n] + [products[n]] == products;
    }
  }

  lemma RuleStands(rows: Rows, payload: seq<RuleIn>, ids: seq<Id>, rule: RuleIn, start: Id, next: Id)
    requires Stands(rows, payload, ids) && start <= next && DrawnSince(rows, start, next) && Distinct(rule.products)
    ensures Stands(RowRule(rows, rule, next), payload + [rule], ids + [next])
  {
    StartRule(rows, payload, ids, next, rule.terms);
    PlacesStand(rows.(rules := rows.rules[next := rule.terms]), payload, ids, next, rule.terms, rule.products, start,
                next + 1);
  }

  lemma {:induction false} RowsStand(payload: seq<RuleIn>, start: Id)
    requires Accepted(payload)
    ensures Stands(RowsFrom(payload, start), payload, IdsFrom(payload, start))
  {
    if payload != [] {
      var n := |payload| - 1;
      RowsStand(payload[..n], start);
      RowsAreDrawn(payload[..n], start);
      RuleStands(RowsFrom(payload[..n], start), payload[..n], IdsFrom(payload[..n], start), payload[n], start,
                 NextAfter(payload[..n], start));
      assert payload == payload[..n] + [payload[n]];
    }
  }

  lemma NewPromotionIsBelow(db: Database, p: Id)
    requires Below(db, p)
    ensures p !in db.promotions && Below(db, p + 1) && Below(db.(promotions := db.promotions[p := None]), p + 1)
  {
  }

  lemma FormIsNew(db: Database, payload: seq<RuleIn>, start: Id)
    requires Below(db, start) && Accepted(payload) && Disjoint(payload)
    ensures Passes(FormFrom(payload, start)) && Unused(db, FormFrom(payload, start).rows)
  {
    RowsStand(payload, start);
    RowsAreDrawn(payload, start);
  }

  /** What `Create` and `UpdateShape` write for a payload without a shared product are
      steps of the runs above. */
  lemma WritesAreSteps(w: World, next: Id, payload: seq<RuleIn>, who: nat)
    requires Below(w.db, next) && Accepted(payload) && Disjoint(payload)
    ensures var form := FormFrom(payload, next + 1);
            && CanStep(w, Step.Create(next, form))
            && After(w, Step.Create(next, form)).db == Created(w.db, next, form.rows)
    ensures who in w.read && w.read[who].promotion in w.db.promotions ==>
              var form := FormFrom(payload, next);
              && CanStep(w, Rewrite(who, form))
              && After(w, Rewrite(who, form)).db
                 == Rewritten(w.db, w.read[who].promotion, w.read[who].rules, form.rows)
  {
    NewPromotionIsBelow(w.db, next);
    FormIsNew(w.db, payload, next + 1);
    FormIsNew(w.db, payload, next);
  }

  lemma WithoutMore(db: Database, a: set<Id>, b: set<Id>)
    ensures Without(Without(db, a), b) == Without(db, a + b)
  {
  }

  lemma WithoutIsBelow(db: Database, gone: set<Id>, next: Id)
    requires Below(db, next)
    ensures Below(Without(db, gone), next)
  {
  }

  function Members(s: seq<Id>): set<Id> { set x | x in s }

  function ProductsOf(variants: map<Id, Variant>, r: Id): set<Id> {
    set v | v in variants && variants[v].rule == Some(r) :: variants[v].product
  }

  /** Read back from the database, the rules of the payload are there, new ones of the
      promotion with their terms; those in `gone` are gone, all others as before. */
  predicate RulesReadBack(before: map<Id, Rule>, after: map<Id, Rule>, p: Id, gone: set<Id>, payload: seq<RuleIn>,
                          ids: seq<Id>)
  {
    && |ids| == |payload| && Distinct(ids)
    && after.Keys == (before.Keys - gone) + Members(ids)
    && (forall i | 0 <= i < |ids| :: ids[i] !in before && after[ids[i]] == Rule(p, payload[i].terms))
    && (forall r | r in before && r !in gone :: after[r] == before[r])
  }

  /** Each rule of the payload has exactly its products, each in one row, and the rows
      of other rules are as before, but for those of the rules in `gone`. */
  predicate ProductsReadBack(before: map<Id, Variant>, after: map<Id, Variant>, gone: set<Id>, payload: seq<RuleIn>,
                             ids: seq<Id>)
  {
    && |ids| == |payload|
    && (forall i | 0 <= i < |ids| :: ProductsOf(after, ids[i]) == Members(payload[i].products))
    && (forall v, w | v in after && w in after && v != w && BelongsTo(after[v], Members(ids)) :: after[v] != after[w])
    && (forall v | v in before && !BelongsTo(before[v], gone) :: v in after && after[v] == before[v])
    && (forall v | v in after && !BelongsTo(after[v], Members(ids)) :: v in before && !BelongsTo(before[v], gone))
  }

  lemma RulesStand(db: Database, p: Id, gone: set<Id>, rows: Rows, payload: seq<RuleIn>, ids: seq<Id>)
    requires Stands(rows, payload, ids) && Unused(db, rows)
    ensures RulesReadBack(db.rules, Rewritten(db, p, gone, rows).rules, p, gone, payload, ids)
  {
    NewRulesOf(Without(db, gone), p, rows);
  }

  lemma RowOfRule(db: Database, p: Id, rows: Rows, payload: seq<RuleIn>, ids: seq<Id>, v: Id)
    requires Modern(db) && Stands(rows, payload, ids) && Unused(db, rows) && v in Inserted(db, p, rows).variants
    ensures var row := Inserted(db, p, rows).variants[v];
            && (v in rows.variants <==> BelongsTo(row, Members(ids)))
            && (v in rows.variants ==> row == PlacedRow(rows.variants[v]) && Named(rows.variants[v], payload, ids))
            && (v !in rows.variants ==> v in db.variants && row == db.variants[v])
  {
    NewVariants(db, p, rows);
    if v in rows.variants { assert Named(rows.variants[v], payload, ids); }
  }

  lemma ProductsStand(db: Database, p: Id, rows: Rows, payload: seq<RuleIn>, ids: seq<Id>, i: nat)
    requires Modern(db) && Stands(rows, payload, ids) && Unused(db, rows) && i < |ids|
    ensures ProductsOf(Inserted(db, p, rows).variants, ids[i]) == Members(payload[i].products)
  {
    var after := Inserted(db, p, rows);
    forall x | x in payload[i].products ensures x in ProductsOf(after.variants, ids[i]) {
      assert Placed(rows.variants, Place(ids[i], x));
      var v :| v in rows.variants && rows.variants[v] == Place(ids[i], x);
      RowOfRule(db, p, rows, payload, ids, v);
    }
    forall x | x in ProductsOf(after.variants, ids[i]) ensures x in payload[i].products {
      var v :| v in after.variants && after.variants[v].rule == Some(ids[i]) && after.variants[v].product == x;
      RowOfRule(db, p, rows, payload, ids, v);
      var k :| 0 <= k < |ids| && ids[i] == ids[k] && x in payload[k].products;
    }
  }

  lemma RowsStayApart(db: Database, p: Id, rows: Rows, payload: seq<RuleIn>, ids: seq<Id>, v: Id, w: Id)
    requires Modern(db) && Stands(rows, payload, ids) && Unused(db, rows) && v != w
    requires var after := Inserted(db, p, rows).variants;
             v in after && w in after && BelongsTo(after[v], Members(ids))
    ensures Inserted(db, p, rows).variants[v] != Inserted(db, p, rows).variants[w]
  {
    RowOfRule(db, p, rows, payload, ids, v);
    RowOfRule(db, p, rows, payload, ids, w);
    if w in rows.variants { assert rows.variants[v] != rows.variants[w]; }
  }

  lemma VariantsStand(db: Database, p: Id, gone: set<Id>, rows: Rows, payload: seq<RuleIn>, ids: seq<Id>)
    requires Modern(db) && Stands(rows, payload, ids) && Unused(db, rows)
    ensures ProductsReadBack(db.variants, Rewritten(db, p, gone, rows).variants, gone, payload, ids)
  {
    var rest, after := Without(db, gone), Rewritten(db, p, gone, rows);
    assert Modern(rest) && Unused(rest, rows) && after == Inserted(rest, p, rows);
    forall i | 0 <= i < |ids| ensures ProductsOf(after.variants, ids[i]) == Members(payload[i].products) {
      ProductsStand(rest, p, rows, payload, ids, i);
    }
    forall v, w | v in after.variants && w in after.variants && v != w
                  && BelongsTo(after.variants[v], Members(ids))
      ensures after.variants[v] != after.variants[w]
    {
      RowsStayApart(rest, p, rows, payload, ids, v, w);
    }
    OthersStay(rest, p, rows, payload, ids);
  }

  lemma OthersStay(db: Database, p: Id, rows: Rows, payload: seq<RuleIn>, ids: seq<Id>)
    requires Modern(db) && Stands(rows, payload, ids) && Unused(db, rows)
    ensures var after := Inserted(db, p, rows).variants;
            && (forall v | v in db.variants :: v in after && after[v] == db.variants[v])
            && (forall v | v in after && !BelongsTo(after[v], Members(ids)) :: v in db.variants)
  {
    NewVariants(db, p, rows);
    var after := Inserted(db, p, rows).variants;
    forall v | v in after && !BelongsTo(after[v], Members(ids)) ensures v in db.variants {
      RowOfRule(db, p, rows, payload, ids, v);
    }
  }

  predicate ReadBack(before: Database, after: Database, p: Id, gone: set<Id>, payload: seq<RuleIn>,
                     ids: seq<Id>)
  {
    && RulesReadBack(before.rules, after.rules, p, gone, payload, ids)
    && ProductsReadBack(before.variants, after.variants, gone, payload, ids)
  }

  /** What a change of rules wrote can be read back. */
  lemma ChangeReadsBack(db: Database, p: Id, gone: set<Id>, payload: seq<RuleIn>, start: Id)
    requires Below(db, start)
    ensures Modern(db) && Accepted(payload) ==>
              var form := FormFrom(payload, start);
              ReadBack(db, Rewritten(db, p, gone, form.rows), p, gone, payload, form.ids)
  {
    if Modern(db) && Accepted(payload) {
      var rows, ids := RowsFrom(payload, start), IdsFrom(payload, start);
      RowsStand(payload, start);
      RowsAreDrawn(payload, start);
      assert Unused(db, rows);
      RulesStand(db, p, gone, rows, payload, ids);
      VariantsStand(db, p, gone, rows, payload, ids);
    }
  }

  lemma CreatedIsChanged(db: Database, p: Id, rows: Rows)
    ensures Created(db, p, rows) == Rewritten(db.(promotions := db.promotions[p := None]), p, {}, rows)
  {
    var db' := db.(promotions := db.promotions[p := None]);
    assert Without(db', {}) == db';
  }

  lemma CreationReadsBack(db: Database, p: Id, payload: seq<RuleIn>)
    requires Below(db, p)
    ensures Modern(db) && Accepted(payload) ==>
              var after := Created(db, p, FormFrom(payload, p + 1).rows);
              && after.promotions == db.promotions[p := None]
              && ReadBack(db, after, p, {}, payload, IdsFrom(payload, p + 1))
  {
    if Modern(db) && Accepted(payload) {
      NewPromotionIsBelow(db, p);
      CreatedIsChanged(db, p, FormFrom(payload, p + 1).rows);
      ChangeReadsBack(db.(promotions := db.promotions[p := None]), p, {}, payload, p + 1);
    }
  }

  class Session {
    var db: Database
    /** Random ids are never in use; here they are drawn in order. */
    var next: Id

    predicate Valid()
      reads this
    {
      Below(db, next)
    }

    /** `_apply_variant_set` */
    method ApplyVariantSet(r: Id, products: seq<Id>, catalog: set<Id>) returns (ok: bool)
      modifies this
      ensures ok <==> forall x | x in products :: x in catalog
      ensures ok ==> db == old(db).(variants := PutPlaces(old(db).variants, r, products, old(next)))
      ensures ok ==> next == old(next) + |products|
      ensures !ok ==> db == old(db) && next == old(next)
    {
      ok := forall x | x in products :: x in catalog;
      if ok {
        ghost var before, start := db, next;
        for k := 0 to |products|
          invariant db == before.(variants := PutPlaces(before.variants, r, products[..k], start)) && next == start + k
        {
          assert products[..k + 1][..k] == products[..k];
          db := db.(variants := db.variants[next := PlacedRow(Place(r, products[k]))]);
          next := next + 1;
        }
        assert products[..|products|] == products;
      }
    }

    /** `_add_rules` */
    method AddRules(p: Id, payload: seq<RuleIn>, catalog: set<Id>) returns (ok: bool)
      requires Valid()
      modifies this
      ensures Valid() && next >= old(next)
      ensures ok <==> AllInCatalog(payload, catalog)
      ensures ok ==> db == Inserted(old(db), p, RowsFrom(payload, old(next)))
    {
      ghost var before, start := db, next;
      for n := 0 to |payload|
        invariant AllInCatalog(payload[..n], catalog)
        invariant db == PutRules(before, p, payload[..n], start) && next == NextAfter(payload[..n], start)
      {
        var r := next;
        RulesAreBelow(before, p, payload[..n], start);
        assert payload[..n + 1][..n] == payload[..n];
        db := db.(rules := db.rules[r := Rule(p, payload[n].terms)]);
        next := next + 1;
        ok := ApplyVariantSet(r, payload[n].products, catalog);
        if !ok { return; }
      }
      ok := true;
      assert payload[..|payload|] == payload;
      RulesAreBelow(before, p, payload, start);
      RulesAreInserted(before, p, payload, start);
    }

    /** The promotion of `create`, with its rules. */
    method AddPromotion(payload: seq<RuleIn>, catalog: set<Id>) returns (ok: bool, p: Id)
      requires Valid()
      modifies this
      ensures Valid() && p == old(next) <= next
      ensures ok <==> AllInCatalog(payload, catalog)
      ensures ok ==> db == Created(old(db), p, RowsFrom(payload, p + 1))
    {
      p := next;
      NewPromotionIsBelow(db, p);
      next := next + 1;
      db := db.(promotions := db.promotions[p := None]);
      ok := AddRules(p, payload, catalog);
    }

    /** The rows written are those of the form that starts right after the promotion. */
    method Create(payload: seq<RuleIn>, catalog: set<Id>, allowed: bool) returns (outcome: Outcome, p: Id)
      requires Valid()
      modifies this
      ensures Valid() && Judged(payload, catalog, allowed, outcome) && p == old(next)
      ensures db == if outcome.Done? then Created(old(db), p, FormFrom(payload, p + 1).rows) else old(db)
      ensures outcome.Done? && Modern(old(db)) && Accepted(payload) ==>
                && p !in old(db).promotions && db.promotions == old(db).promotions[p := None]
                && ReadBack(old(db), db, p, {}, payload, IdsFrom(payload, p + 1))
    {
      var before := db;
      p := next;
      var found := FindShared(payload);
      if found.Some? {
        var Pair(a, b) := found.value;
        return SharedVariants(a, b, Common(payload[a], payload[b])), p;
      }
      var ok;
      ok, p := AddPromotion(payload, catalog);
      CreationReadsBack(before, p, payload);
      if ok && allowed { return Done, p; }
      db := before;
      outcome := if ok then Refused else NotInCatalog;
    }

    method DeleteRules(listed: seq<Id>)
      requires Valid()
      modifies this`db
      ensures Valid() && db == Without(old(db), Members(listed))
    {
      ghost var before := db;
      assert Without(before, Members(listed[..0])) == before;
      for n := 0 to |listed|
        invariant db == Without(before, Members(listed[..n]))
      {
        WithoutMore(before, Members(listed[..n]), {listed[n]});
        db := Without(db, {listed[n]});
        assert Members(listed[..n]) + {listed[n]} == Members(listed[..n + 1]);
      }
      assert listed[..|listed|] == listed;
      WithoutIsBelow(before, Members(listed), next);
    }

    /** `listed` is the promotion's rules as they were read. */
    method UpdateShape(p: Id, listed: seq<Id>, status: string, payload: seq<RuleIn>, catalog: set<Id>, allowed: bool)
      returns (outcome: Outcome)
      requires Valid()
      modifies this
      ensures Valid()
      ensures outcome.NotEditable? <==> status != "draft" && status != "paused"
      ensures !outcome.NotEditable? ==> Judged(payload, catalog, allowed, outcome)
      ensures db == if outcome.Done? then Rewritten(old(db), p, Members(listed), FormFrom(payload, old(next)).rows)
                    else old(db)
      ensures outcome.Done? && Modern(old(db)) && Accepted(payload) ==>
                && db.promotions == old(db).promotions
                && ReadBack(old(db), db, p, Members(listed), payload, IdsFrom(payload, old(next)))
    {
      var before := db;
      ChangeReadsBack(before, p, Members(listed), payload, next);
      if status != "draft" && status != "paused" { return NotEditable; }
      var found := FindShared(payload);
      if found.Some? {
        var Pair(a, b) := found.value;
        return SharedVariants(a, b, Common(payload[a], payload[b]));
      }
      DeleteRules(listed);
      var ok := AddRules(p, payload, catalog);
      if ok && allowed { return Done; }
      db := before;
      outcome := if ok then Refused else NotInCatalog;
    }
  }
}
