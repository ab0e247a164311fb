/**
 Moving the terms of promotions into a table of rules, and back. Rows are named
 by their ids; a column that does not exist or is NULL is None.
 */
module PromotionRules {
  import opened Options

  type Id = nat

  /** `type`, `value` in cents and `min_qty`, which are set and dropped together. */
  datatype Terms = Terms(kind: string, value: int, minQty: int)

  datatype Rule = Rule(promotion: Id, terms: Terms)

  datatype Variant = Variant(promotion: Option<Id>, rule: Option<Id>, product: Id)

  datatype Database = Database(promotions: map<Id, Option<Terms>>, rules: map<Id, Rule>, variants: map<Id, Variant>)

  /** The schema before the migration, with its foreign keys and NOT NULLs. */
  predicate Flat(db: Database) {
    && db.rules == map[]
    && (forall p | p in db.promotions :: db.promotions[p].Some?)
    && (forall v | v in db.variants ::
          && db.variants[v].promotion.Some? && db.variants[v].promotion.value in db.promotions
          && db.variants[v].rule.None?)
  }

  /** The schema after it. */
  predicate Modern(db: Database) {
    && (forall p | p in db.promotions :: db.promotions[p].None?)
    && (forall r | r in db.rules :: db.rules[r].promotion in db.promotions)
    && (forall v | v in db.variants ::
          db.variants[v].promotion.None? && db.variants[v].rule.Some? && db.variants[v].rule.value in db.rules)
  }

  // ------------------------------------------------------------- what the steps do

  function RulesOf(rules: map<Id, Rule>, p: Id): set<Id> { set r | r in rules && rules[r].promotion == p }

  predicate OnlyRule(rules: map<Id, Rule>, p: Id, r: Id) { RulesOf(rules, p) == {r} }

  /** New ids for the rules of some promotions, all different. */
  predicate Drawn(db: Database, ruleOf: map<Id, Id>) {
    && (forall p | p in ruleOf :: p in db.promotions && db.promotions[p].Some? && ruleOf[p] !in db.rules)
    && (forall p, q | p in ruleOf && q in ruleOf && ruleOf[p] == ruleOf[q] :: p == q)
  }

  function NewRules(db: Database, ruleOf: map<Id, Id>): map<Id, Rule>
    requires Drawn(db, ruleOf)
  {
    map p | p in ruleOf :: ruleOf[p] := Rule(p, db.promotions[p].value)
  }

  function PointRule(v: Variant, ruleOf: map<Id, Id>): Variant {
    if v.promotion.Some? && v.promotion.value in ruleOf then v.(rule := Some(ruleOf[v.promotion.value])) else v
  }

  function Pointed(variants: map<Id, Variant>, ruleOf: map<Id, Id>): map<Id, Variant> {
    map v | v in variants :: PointRule(variants[v], ruleOf)
  }

  /** One new rule with its terms for each of some promotions, and their variants
      pointing to it. */
  function Migrated(db: Database, ruleOf: map<Id, Id>): Database
    requires Drawn(db, ruleOf)
  {
    Database(db.promotions, db.rules + NewRules(db, ruleOf), Pointed(db.variants, ruleOf))
  }

  /** The column drops of the second migration. */
  function Dropped(db: Database): Database {
    Database(map p | p in db.promotions :: None, db.rules,
             map v | v in db.variants :: db.variants[v].(promotion := None))
  }

  /** The terms of a promotion after flattening: those of its rule, if it has one
      rule; otherwise what the column held. */
  ghost function TermsAfter(db: Database, p: Id): Option<Terms>
    requires p in db.promotions
  {
    if r :| OnlyRule(db.rules, p, r) then assert r in RulesOf(db.rules, p); Some(db.rules[r].terms)
    else db.promotions[p]
  }

  /** The owner of a variant after flattening some promotions. */
  function Owned(db: Database, v: Variant, dealt: set<Id>): Variant {
    if v.rule.Some? && v.rule.value in db.rules && db.rules[v.rule.value].promotion in dealt
    then v.(promotion := Some(db.rules[v.rule.value].promotion)) else v
  }

  ghost function FlattenedFor(db: Database, dealt: set<Id>): Database {
    Database(map p | p in db.promotions :: if p in dealt then TermsAfter(db, p) else db.promotions[p], db.rules,
             map v | v in db.variants :: Owned(db, db.variants[v], dealt))
  }

  ghost function Flattened(db: Database): Database { FlattenedFor(db, db.promotions.Keys) }

  /** The undoing of the first migration: the table and the column of rules go. */
  function WithoutRules(db: Database): Database {
    Database(db.promotions, map[], map v | v in db.variants :: db.variants[v].(rule := None))
  }

  // ------------------------------------------------------------------- as they run

  class Schema {
    var promotions: map<Id, Option<Terms>>
    var rules: map<Id, Rule>
    var variants: map<Id, Variant>

    ghost function State(): Database
      reads this
    {
      Database(promotions, rules, variants)
    }

    constructor (db: Database)
      ensures State() == db
    {
      promotions, rules, variants := db.promotions, db.rules, db.variants;
    }

    /** `migrate_promotion_rules_data`: `listed` is the order in which the rows are
        fetched, `drawn` the random ids of the new rules. */
    method MigrateRules(listed: seq<Id>, drawn: seq<Id>) returns (ghost ruleOf: map<Id, Id>)
      requires forall i | 0 <= i < |listed| :: listed[i] in promotions && promotions[listed[i]].Some?
      requires forall p | p in promotions :: p in listed
      requires forall i, j | 0 <= i < j < |listed| :: listed[i] != listed[j]
      requires |drawn| == |listed| && forall i, j | 0 <= i < j < |drawn| :: drawn[i] != drawn[j]
      requires forall i | 0 <= i < |drawn| :: drawn[i] !in rules
      modifies this`rules, this`variants
      ensures ruleOf.Keys == promotions.Keys && Drawn(old(State()), ruleOf)
      ensures State() == Migrated(old(State()), ruleOf)
    {
      ruleOf := map[];
      ghost var before := State();
      assert variants == Pointed(variants, ruleOf);
      for n := 0 to |listed|
        invariant promotions == before.promotions
        invariant forall i | n <= i < |drawn| :: drawn[i] !in rules
        invariant ruleOf.Keys == set i | 0 <= i < n :: listed[i]
        invariant RulesMade(before, rules, ruleOf)
        invariant variants == Pointed(before.variants, ruleOf)
      {
        var p, r := listed[n], drawn[n];
        RuleMade(before, rules, ruleOf, p, r);
        VariantsPointed(before.variants, ruleOf, p, r);
        rules := rules[r := Rule(p, promotions[p].value)];
        variants := Repoint(variants, p, r);
        ruleOf := ruleOf[p := r];
      }
      assert ruleOf.Keys == promotions.Keys;
      RulesAreMade(before, rules, ruleOf);
    }

    /** `downgrade_flatten_rules_data`: `fetched` lists the rules of each promotion. */
    method Flatten(listed: seq<Id>, fetched: map<Id, seq<Id>>)
      requires forall i | 0 <= i < |listed| :: listed[i] in promotions
      requires forall p | p in promotions :: p in listed && p in fetched
      requires forall i, j | 0 <= i < j < |listed| :: listed[i] != listed[j]
      requires forall p | p in promotions :: Lists(rules, p, fetched[p])
      modifies this`promotions, this`variants
      ensures State() == Flattened(old(State()))
    {
      ghost var before, dealt: set<Id> := State(), {};
      NothingFlattened(before);
      for n := 0 to |listed|
        invariant rules == before.rules
        invariant dealt <= before.promotions.Keys && forall i | 0 <= i < |listed| :: listed[i] in dealt <==> i < n
        invariant State() == FlattenedFor(before, dealt)
      {
        ghost var p := listed[n];
        ListedRulesExist(rules, p, fetched[p]);
        FlattenOne(before, dealt, p, fetched[p]);
        FlattenPromotion(listed[n], fetched[listed[n]]);
        dealt := dealt + {p};
      }
      assert dealt == before.promotions.Keys;
    }

    /** One turn of its loop: one rule, several or none. */
    method FlattenPromotion(p: Id, found: seq<Id>)
      requires forall i | 0 <= i < |found| :: found[i] in rules
      modifies this`promotions, this`variants
      ensures promotions == if |found| == 1 then old(promotions)[p := Some(rules[found[0]].terms)] else old(promotions)
      ensures variants == RepointAll(old(variants), found, p)
    {
      ghost var start := variants;
      if |found| == 1 {
        promotions := promotions[p := Some(rules[found[0]].terms)];
        PointVariants(found[0], p);
        assert found == [found[0]];
      } else if |found| > 1 {
        assert variants == RepointAll(start, found[..0], p);
        for k := 0 to |found|
          invariant promotions == old(promotions)
          invariant variants == RepointAll(start, found[..k], p)
        {
          RepointMore(start, found, k, p);
          PointVariants(found[k], p);
        }
        assert found[..|found|] == found;
      }
    }

    /** UPDATE promotion_variants SET promotion_id WHERE promotion_rule_id. */
    method PointVariants(r: Id, p: Id)
      modifies this`variants
      ensures variants == RepointAll(old(variants), [r], p)
    {
      variants := map v | v in variants ::
        if variants[v].rule == Some(r) then variants[v].(promotion := Some(p)) else variants[v];
    }
  }

  /** The rules of a promotion, each once. */
  ghost predicate Lists(rules: map<Id, Rule>, p: Id, found: seq<Id>) {
    && (forall r :: r in found <==> r in RulesOf(rules, p))
    && (forall i, j | 0 <= i < j < |found| :: found[i] != found[j])
  }

  /** UPDATE promotion_variants SET promotion_rule_id WHERE promotion_id. */
  function Repoint(variants: map<Id, Variant>, p: Id, r: Id): map<Id, Variant> {
    map v | v in variants :: if variants[v].promotion == Some(p) then variants[v].(rule := Some(r)) else variants[v]
  }

  function Repointed(v: Variant, found: seq<Id>, p: Id): Variant {
    if v.rule.Some? && v.rule.value in found then v.(promotion := Some(p)) else v
  }

  function RepointAll(variants: map<Id, Variant>, found: seq<Id>, p: Id): map<Id, Variant> {
    map v | v in variants :: Repointed(variants[v], found, p)
  }

  lemma RepointMore(variants: map<Id, Variant>, found: seq<Id>, k: nat, p: Id)
    requires k < |found|
    ensures RepointAll(RepointAll(variants, found[..k], p), [found[k]], p) == RepointAll(variants, found[..k + 1], p)
  {
    assert found[..k + 1] == found[..k] + [found[k]];
  }

  lemma NewRuleAt(db: Database, ruleOf: map<Id, Id>, p: Id)
    requires Drawn(db, ruleOf) && p in ruleOf
    ensures ruleOf[p] in NewRules(db, ruleOf) && NewRules(db, ruleOf)[ruleOf[p]] == Rule(p, db.promotions[p].value)
  {
  }

  lemma NewRuleFrom(db: Database, ruleOf: map<Id, Id>, r: Id) returns (p: Id)
    requires Drawn(db, ruleOf) && r in NewRules(db, ruleOf)
    ensures p in ruleOf && ruleOf[p] == r && NewRules(db, ruleOf)[r] == Rule(p, db.promotions[p].value)
  {
    p :| p in ruleOf && ruleOf[p] == r;
    NewRuleAt(db, ruleOf, p);
  }

  predicate NewRule(ruleOf: map<Id, Id>, r: Id) { exists p | p in ruleOf :: ruleOf[p] == r }

  /** The table of rules while some promotions have got theirs. */
  ghost predicate RulesMade(before: Database, rules: map<Id, Rule>, ruleOf: map<Id, Id>) {
    && (forall p | p in ruleOf ::
          && p in before.promotions && before.promotions[p].Some?
          && ruleOf[p] !in before.rules && ruleOf[p] in rules
          && rules[ruleOf[p]] == Rule(p, before.promotions[p].value))
    && (forall r | r in rules :: r in before.rules || NewRule(ruleOf, r))
    && (forall r | r in before.rules :: r in rules && rules[r] == before.rules[r])
  }

  lemma RuleMade(before: Database, rules: map<Id, Rule>, ruleOf: map<Id, Id>, p: Id, r: Id)
    requires RulesMade(before, rules, ruleOf)
    requires p !in ruleOf && p in before.promotions && before.promotions[p].Some? && r !in rules
    ensures RulesMade(before, rules[r := Rule(p, before.promotions[p].value)], ruleOf[p := r])
  {
    var more, now := ruleOf[p := r], rules[r := Rule(p, before.promotions[p].value)];
    forall q | q in now ensures q in before.rules || NewRule(more, q) {
      if q == r {
        assert more[p] == q;
      } else if NewRule(ruleOf, q) {
        var o :| o in ruleOf && ruleOf[o] == q;
        assert more[o] == q;
      }
    }
  }

  lemma RulesAreMade(before: Database, rules: map<Id, Rule>, ruleOf: map<Id, Id>)
    requires RulesMade(before, rules, ruleOf)
    ensures Drawn(before, ruleOf) && rules == before.rules + NewRules(before, ruleOf)
  {
    forall p, q | p in ruleOf && q in ruleOf && ruleOf[p] == ruleOf[q] ensures p == q {
      assert rules[ruleOf[p]].promotion == p && rules[ruleOf[q]].promotion == q;
    }
    var made := before.rules + NewRules(before, ruleOf);
    forall r | r in rules ensures r in made && made[r] == rules[r] {
      if r !in before.rules {
        assert NewRule(ruleOf, r);
        var p :| p in ruleOf && ruleOf[p] == r;
        NewRuleAt(before, ruleOf, p);
      } else if r in NewRules(before, ruleOf) {
        var p := NewRuleFrom(before, ruleOf, r);
      }
    }
    forall r | r in made ensures r in rules {
      if r !in before.rules { var p := NewRuleFrom(before, ruleOf, r); }
    }
    assert rules.Keys == made.Keys;
  }

  lemma VariantsPointed(variants: map<Id, Variant>, ruleOf: map<Id, Id>, p: Id, r: Id)
    requires p !in ruleOf
    ensures Pointed(variants, ruleOf[p := r]) == Repoint(Pointed(variants, ruleOf), p, r)
  {
  }

  lemma NothingFlattened(db: Database)
    ensures FlattenedFor(db, {}) == db
  {
  }

  lemma ListedRulesExist(rules: map<Id, Rule>, p: Id, found: seq<Id>)
    requires Lists(rules, p, found)
    ensures forall i | 0 <= i < |found| :: found[i] in rules
  {
    forall i | 0 <= i < |found| ensures found[i] in rules { assert found[i] in RulesOf(rules, p); }
  }

  lemma SingletonList(rules: map<Id, Rule>, p: Id, found: seq<Id>)
    requires Lists(rules, p, found)
    ensures |found| == 1 ==> OnlyRule(rules, p, found[0])
    ensures |found| != 1 ==> forall r :: !OnlyRule(rules, p, r)
  {
    if |found| == 1 {
      forall r ensures r in RulesOf(rules, p) <==> r == found[0] { assert r in found <==> r == found[0]; }
    } else if |found| > 1 {
      assert found[0] in found && found[1] in found && found[0] != found[1];
    } else {
      forall r ensures r !in RulesOf(rules, p) { assert r !in found; }
      forall r ensures !OnlyRule(rules, p, r) { assert r in {r} && r !in RulesOf(rules, p); }
    }
  }

  lemma TermsAre(db: Database, p: Id, r: Id)
    requires p in db.promotions && OnlyRule(db.rules, p, r)
    ensures r in db.rules && TermsAfter(db, p) == Some(db.rules[r].terms)
  {
    assert r in RulesOf(db.rules, p);
    forall q | OnlyRule(db.rules, p, q) ensures q == r { assert q in RulesOf(db.rules, p); }
  }

  /** One more promotion dealt with is what a turn of the loop does. */
  lemma FlattenOne(db: Database, dealt: set<Id>, p: Id, found: seq<Id>)
    requires p in db.promotions && p !in dealt && Lists(db.rules, p, found)
    requires forall i | 0 <= i < |found| :: found[i] in db.rules
    ensures var s, s' := FlattenedFor(db, dealt), FlattenedFor(db, dealt + {p});
            && s'.promotions
               == (if |found| == 1 then s.promotions[p := Some(db.rules[found[0]].terms)] else s.promotions)
            && s'.variants == RepointAll(s.variants, found, p)
  {
    SingletonList(db.rules, p, found);
    if |found| == 1 { TermsAre(db, p, found[0]); }
    forall v | v in db.variants
      ensures Owned(db, db.variants[v], dealt + {p}) == Repointed(Owned(db, db.variants[v], dealt), found, p)
    {
      OwnedOneMore(db, db.variants[v], dealt, p, found);
    }
  }

  lemma OwnedOneMore(db: Database, v: Variant, dealt: set<Id>, p: Id, found: seq<Id>)
    requires p !in dealt && Lists(db.rules, p, found)
    ensures Owned(db, v, dealt + {p}) == Repointed(Owned(db, v, dealt), found, p)
  {
    if v.rule.Some? { assert v.rule.value in found <==> v.rule.value in RulesOf(db.rules, p); }
  }

  // -------------------------------------------------------------------- round trip

  /** The first migration, of a whole flat database. */
  predicate Migrates(flat: Database, ruleOf: map<Id, Id>) {
    Flat(flat) && Drawn(flat, ruleOf) && ruleOf.Keys == flat.promotions.Keys
  }

  /** A migrated promotion has one rule, with its terms. */
  lemma OneRuleEach(flat: Database, ruleOf: map<Id, Id>, p: Id)
    requires Migrates(flat, ruleOf) && p in flat.promotions
    ensures var rules := Migrated(flat, ruleOf).rules;
            OnlyRule(rules, p, ruleOf[p]) && rules[ruleOf[p]] == Rule(p, flat.promotions[p].value)
  {
    var rules := Migrated(flat, ruleOf).rules;
    NewRuleAt(flat, ruleOf, p);
    forall r | r in RulesOf(rules, p) ensures r == ruleOf[p] {
      var q := NewRuleFrom(flat, ruleOf, r);
    }
    assert ruleOf[p] in RulesOf(rules, p);
  }

  /** The first migration leaves what the second one's NOT NULL and drops need. */
  lemma MigratedIsModern(flat: Database, ruleOf: map<Id, Id>)
    requires Migrates(flat, ruleOf)
    ensures Modern(Dropped(Migrated(flat, ruleOf)))
  {
    var db := Dropped(Migrated(flat, ruleOf));
    forall r | r in db.rules ensures db.rules[r].promotion in db.promotions {
      var q := NewRuleFrom(flat, ruleOf, r);
    }
    forall v | v in db.variants ensures db.variants[v].rule.Some? && db.variants[v].rule.value in db.rules {
      NewRuleAt(flat, ruleOf, flat.variants[v].promotion.value);
    }
  }

  lemma TermsBack(flat: Database, ruleOf: map<Id, Id>, p: Id)
    requires Migrates(flat, ruleOf) && p in flat.promotions
    ensures Flattened(Dropped(Migrated(flat, ruleOf))).promotions[p] == flat.promotions[p]
  {
    OneRuleEach(flat, ruleOf, p);
    TermsAre(Dropped(Migrated(flat, ruleOf)), p, ruleOf[p]);
  }

  /** Up through both migrations and down again: every type, value and minimum is
      back, of the same promotions. */
  lemma UpAndDownRestoresTerms(flat: Database, ruleOf: map<Id, Id>)
    requires Migrates(flat, ruleOf)
    ensures Flattened(Dropped(Migrated(flat, ruleOf))).promotions == flat.promotions
  {
    SamePromotions(flat, ruleOf);
    forall p | p in flat.promotions
      ensures Flattened(Dropped(Migrated(flat, ruleOf))).promotions[p] == flat.promotions[p]
    {
      TermsBack(flat, ruleOf, p);
    }
    SameMap(Flattened(Dropped(Migrated(flat, ruleOf))).promotions, flat.promotions);
  }

  lemma SameMap<V>(a: map<Id, V>, b: map<Id, V>)
    requires a.Keys == b.Keys && forall k | k in a :: a[k] == b[k]
    ensures a == b
  {
  }

  lemma SamePromotions(flat: Database, ruleOf: map<Id, Id>)
    requires Migrates(flat, ruleOf)
    ensures Flattened(Dropped(Migrated(flat, ruleOf))).promotions.Keys == flat.promotions.Keys
  {
  }

  /** And so is every variant, but for its rule column. */
  lemma UpAndDownRestoresOwners(flat: Database, ruleOf: map<Id, Id>, v: Id)
    requires Migrates(flat, ruleOf)
    ensures var back := Flattened(Dropped(Migrated(flat, ruleOf)));
            && (v in back.variants <==> v in flat.variants)
            && (v in flat.variants ==> back.variants[v].(rule := None) == flat.variants[v])
  {
    if v in flat.variants { OneRuleEach(flat, ruleOf, flat.variants[v].promotion.value); }
  }

  lemma Singleton<T>(s: set<T>, x: T)
    requires |s| == 1 && x in s
    ensures s == {x}
  {
    assert |s - {x}| == 0;
  }

  lemma OnlyOne(rules: map<Id, Rule>, p: Id)
    ensures (exists r :: OnlyRule(rules, p, r)) <==> |RulesOf(rules, p)| == 1
    ensures |RulesOf(rules, p)| == 1 ==> forall r | r in RulesOf(rules, p) :: OnlyRule(rules, p, r)
  {
    if |RulesOf(rules, p)| == 1 {
      forall r | r in RulesOf(rules, p) ensures OnlyRule(rules, p, r) { Singleton(RulesOf(rules, p), r); }
      assert exists r :: r in RulesOf(rules, p);
    }
  }

  /** Flattening any migrated database: owners are always those of the rules, and
      the terms of a promotion come back, those of its rule, exactly when it has one
      rule. */
  lemma FlattenIsExactIff(db: Database, p: Id)
    requires Modern(db) && p in db.promotions
    ensures Flattened(db).promotions[p].Some? <==> |RulesOf(db.rules, p)| == 1
    ensures |RulesOf(db.rules, p)| == 1 ==>
              forall r | r in RulesOf(db.rules, p) :: Flattened(db).promotions[p] == Some(db.rules[r].terms)
    ensures forall v | v in db.variants ::
              Flattened(db).variants[v].promotion == Some(db.rules[db.variants[v].rule.value].promotion)
  {
    OnlyOne(db.rules, p);
    forall r | OnlyRule(db.rules, p, r) ensures r in db.rules && TermsAfter(db, p) == Some(db.rules[r].terms) {
      TermsAre(db, p, r);
    }
  }

  predicate OneRuleEverywhere(db: Database) {
    forall p | p in db.promotions :: |RulesOf(db.rules, p)| == 1
  }

  /** The downgrade leaves the schema from before the migration, with its NOT NULLs,
      exactly when every promotion has one rule. */
  lemma FlattenedIsFlatIff(db: Database)
    requires Modern(db)
    ensures Flat(WithoutRules(Flattened(db))) <==> OneRuleEverywhere(db)
  {
    forall p | p in db.promotions ensures Flattened(db).promotions[p].Some? <==> |RulesOf(db.rules, p)| == 1 {
      FlattenIsExactIff(db, p);
    }
    forall v | v in db.variants
      ensures Flattened(db).variants[v].promotion == Some(db.rules[db.variants[v].rule.value].promotion) {}
  }

  /** Down and up again: where every promotion has one rule the migration finds what
      it needs, whatever new ids are drawn, and each variant gets a rule of the same
      promotion with the same terms. */
  lemma DownAndUpRestores(db: Database, ruleOf: map<Id, Id>, v: Id)
    requires Modern(db) && OneRuleEverywhere(db) && v in db.variants
    requires ruleOf.Keys == db.promotions.Keys
    requires forall p, q | p in ruleOf && q in ruleOf && ruleOf[p] == ruleOf[q] :: p == q
    ensures Migrates(WithoutRules(Flattened(db)), ruleOf)
    ensures var again := Migrated(WithoutRules(Flattened(db)), ruleOf);
            && again.variants[v].rule.Some? && again.variants[v].rule.value in again.rules
            && again.rules[again.variants[v].rule.value] == db.rules[db.variants[v].rule.value]
  {
    var rule := db.rules[db.variants[v].rule.value];
    DownIsReady(db, ruleOf);
    DownGives(db, v);
    UpGives(WithoutRules(Flattened(db)), ruleOf, v, rule.promotion, rule.terms);
  }

  lemma DownIsReady(db: Database, ruleOf: map<Id, Id>)
    requires Modern(db) && OneRuleEverywhere(db)
    requires ruleOf.Keys == db.promotions.Keys
    requires forall p, q | p in ruleOf && q in ruleOf && ruleOf[p] == ruleOf[q] :: p == q
    ensures Migrates(WithoutRules(Flattened(db)), ruleOf)
  {
    FlattenedIsFlatIff(db);
  }

  lemma DownGives(db: Database, v: Id)
    requires Modern(db) && OneRuleEverywhere(db) && v in db.variants
    ensures var flat, rule := WithoutRules(Flattened(db)), db.rules[db.variants[v].rule.value];
            && v in flat.variants && flat.variants[v].promotion == Some(rule.promotion)
            && rule.promotion in flat.promotions && flat.promotions[rule.promotion] == Some(rule.terms)
  {
    var r := db.variants[v].rule.value;
    FlattenIsExactIff(db, db.rules[r].promotion);
    assert r in RulesOf(db.rules, db.rules[r].promotion);
  }

  /** The rule a variant is given by the first migration. */
  lemma UpGives(flat: Database, ruleOf: map<Id, Id>, v: Id, p: Id, terms: Terms)
    requires Migrates(flat, ruleOf) && v in flat.variants && flat.variants[v].promotion == Some(p)
    requires p in flat.promotions && flat.promotions[p] == Some(terms)
    ensures var again := Migrated(flat, ruleOf);
            && again.variants[v].rule.Some? && again.variants[v].rule.value in again.rules
            && again.rules[again.variants[v].rule.value] == Rule(p, terms)
  {
    OneRuleEach(flat, ruleOf, p);
    assert ruleOf[p] in RulesOf(Migrated(flat, ruleOf).rules, p);
  }

  // -------------------------------------------------------------------- uniqueness

  /** UNIQUE (promotion_id, product_variant_id); NULLs never collide. */
  predicate UniqueByPromotion(variants: map<Id, Variant>) {
    forall v, w | v in variants && w in variants && v != w && variants[v].promotion.Some? ::
      variants[v].promotion != variants[w].promotion || variants[v].product != variants[w].product
  }

  /** UNIQUE (promotion_rule_id, product_variant_id) */
  predicate UniqueByRule(variants: map<Id, Variant>) {
    forall v, w | v in variants && w in variants && v != w && variants[v].rule.Some? ::
      variants[v].rule != variants[w].rule || variants[v].product != variants[w].product
  }

  /** After the first migration the new constraint says what the old one said. */
  lemma UniquenessCarriesOver(flat: Database, ruleOf: map<Id, Id>)
    requires Migrates(flat, ruleOf)
    ensures UniqueByPromotion(flat.variants) <==> UniqueByRule(Dropped(Migrated(flat, ruleOf)).variants)
  {
    var variants := Dropped(Migrated(flat, ruleOf)).variants;
    forall v, w | v in flat.variants && w in flat.variants
      ensures variants[v].rule.Some? && variants[v].product == flat.variants[v].product
      ensures variants[v].rule == variants[w].rule <==> flat.variants[v].promotion == flat.variants[w].promotion {}
  }

  /** Two rows put one product in different rules of one promotion. */
  predicate Clash(db: Database, v: Id, w: Id)
    requires Modern(db) && v in db.variants && w in db.variants
  {
    && db.variants[v].rule != db.variants[w].rule && db.variants[v].product == db.variants[w].product
    && db.rules[db.variants[v].rule.value].promotion == db.rules[db.variants[w].rule.value].promotion
  }

  predicate RulesDisjoint(db: Database)
    requires Modern(db)
  {
    forall v, w | v in db.variants && w in db.variants :: !Clash(db, v, w)
  }

  /** The constraint the downgrade puts back holds exactly when no promotion has a
      product in two of its rules; otherwise the downgrade cannot finish. */
  lemma DowngradeConstraintIff(db: Database)
    requires Modern(db) && UniqueByRule(db.variants)
    ensures UniqueByPromotion(Flattened(db).variants) <==> RulesDisjoint(db)
  {
    var variants := Flattened(db).variants;
    forall v, w | v in db.variants && w in db.variants
      ensures variants[v].promotion.Some? && variants[v].product == db.variants[v].product
      ensures variants[v].promotion == variants[w].promotion <==>
                db.rules[db.variants[v].rule.value].promotion == db.rules[db.variants[w].rule.value].promotion {}
    if RulesDisjoint(db) {
      forall v, w | v in variants && w in variants && v != w
        ensures variants[v].promotion != variants[w].promotion || variants[v].product != variants[w].product
      {
        assert !Clash(db, v, w);
        if db.variants[v].rule == db.variants[w].rule { assert db.variants[v].product != db.variants[w].product; }
      }
    }
  }
}
