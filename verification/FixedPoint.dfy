/** Derivation rules as monotone operators over a finite universe of triples, and
    the least set closed under them. A rule sees the reasoning sources together
    with the target graph and derives triples that belong in the target graph. */
module FixedPoint {
  import opened Rdf

  type Rule = set<Triple> -> set<Triple>

  ghost predicate Monotone(rule: Rule) {
    forall a: set<Triple>, b: set<Triple> {:trigger rule(a), rule(b)} :: a <= b ==> rule(a) <= rule(b)
  }

  lemma MonotoneStep(rule: Rule, a: set<Triple>, b: set<Triple>)
    requires Monotone(rule) && a <= b
    ensures rule(a) <= rule(b)
  {
  }

  /** Every rule is monotone and derives only triples of the universe `u`. */
  ghost predicate WellBehaved(u: set<Triple>, rules: seq<Rule>) {
    forall rule | rule in rules :: Monotone(rule) && forall a: set<Triple> :: rule(a) <= u
  }

  /** No rule derives anything that `target` lacks. */
  ghost predicate Closed(rules: seq<Rule>, sources: set<Triple>, target: set<Triple>) {
    forall rule | rule in rules :: rule(sources + target) <= target
  }

  /** `t` is in every closed set of the universe that holds `base`. */
  ghost predicate Forced(u: set<Triple>, rules: seq<Rule>, sources: set<Triple>, base: set<Triple>, t: Triple) {
    forall m: set<Triple> {:trigger Closed(rules, sources, m)} :: base <= m <= u && Closed(rules, sources, m) ==> t in m
  }

  /** The least set that holds `base` and is closed under `rules` (see ClosureIsLeastClosed). */
  ghost function Closure(u: set<Triple>, rules: seq<Rule>, sources: set<Triple>, base: set<Triple>): set<Triple> {
    set t | t in u && Forced(u, rules, sources, base, t)
  }

  /** What a closed set derives, another closed set above it derives too. */
  lemma DerivedIsForced(u: set<Triple>, rules: seq<Rule>, sources: set<Triple>, base: set<Triple>, rule: Rule,
                        t: Triple)
    requires WellBehaved(u, rules) && rule in rules
    requires t in rule(sources + Closure(u, rules, sources, base))
    ensures Forced(u, rules, sources, base, t)
  {
    var c := Closure(u, rules, sources, base);
    forall m: set<Triple> | base <= m <= u && Closed(rules, sources, m)
      ensures t in m
    {
      assert c <= m;
      assert sources + c <= sources + m;
      assert rule(sources + c) <= rule(sources + m);
    }
  }

  /** Cutting a closed set down to the universe leaves it closed. */
  lemma ClosedWithinUniverse(u: set<Triple>, rules: seq<Rule>, sources: set<Triple>, m: set<Triple>)
    requires WellBehaved(u, rules) && Closed(rules, sources, m)
    ensures Closed(rules, sources, m * u)
  {
    forall rule | rule in rules
      ensures rule(sources + m * u) <= m * u
    {
      assert sources + m * u <= sources + m;
      assert rule(sources + m * u) <= rule(sources + m);
    }
  }

  /** Closure holds its base and is closed. */
  lemma ClosureHolds(u: set<Triple>, rules: seq<Rule>, sources: set<Triple>, base: set<Triple>)
    requires WellBehaved(u, rules) && base <= u
    ensures base <= Closure(u, rules, sources, base) <= u
    ensures Closed(rules, sources, Closure(u, rules, sources, base))
  {
    var c := Closure(u, rules, sources, base);
    forall rule, t | rule in rules && t in rule(sources + c)
      ensures t in c
    {
      DerivedIsForced(u, rules, sources, base, rule, t);
    }
  }

  /** Closure lies within every closed set that holds its base, in the universe or not. */
  lemma ClosureIsLeast(u: set<Triple>, rules: seq<Rule>, sources: set<Triple>, base: set<Triple>, m: set<Triple>)
    requires WellBehaved(u, rules) && base <= u
    requires base <= m && Closed(rules, sources, m)
    ensures Closure(u, rules, sources, base) <= m
  {
    ClosedWithinUniverse(u, rules, sources, m);
    assert base <= m * u <= u;
    forall t | t in Closure(u, rules, sources, base)
      ensures t in m
    {
      assert Forced(u, rules, sources, base, t);
      assert t in m * u;
    }
  }

  /** A target between the base and the closure is the closure exactly when it is closed. */
  lemma ClosedWithinIsClosure(u: set<Triple>, rules: seq<Rule>, sources: set<Triple>, base: set<Triple>,
                              target: set<Triple>)
    requires WellBehaved(u, rules) && base <= u
    requires base <= target <= Closure(u, rules, sources, base)
    ensures Closed(rules, sources, target) <==> target == Closure(u, rules, sources, base)
  {
    ClosureHolds(u, rules, sources, base);
    if Closed(rules, sources, target) {
      ClosureIsLeast(u, rules, sources, base, target);
    }
  }

  /** Whatever a rule of `rules` derives, some rule of `rules'` derives too. */
  ghost predicate Covered(rules: seq<Rule>, rules': seq<Rule>) {
    forall rule, view: set<Triple>, t | rule in rules && t in rule(view) ::
      exists rule' :: rule' in rules' && t in rule'(view)
  }

  /** Fewer sources and weaker rules still leave a closed target closed. */
  lemma ClosedOverFewerSources(u: set<Triple>, rules: seq<Rule>, sources: set<Triple>,
                               rules': seq<Rule>, sources': set<Triple>, target: set<Triple>)
    requires WellBehaved(u, rules) && sources <= sources'
    requires Covered(rules, rules')
    requires Closed(rules', sources', target)
    ensures Closed(rules, sources, target)
  {
    forall rule, t | rule in rules && t in rule(sources + target)
      ensures t in target
    {
      assert sources + target <= sources' + target;
      assert rule(sources + target) <= rule(sources' + target);
      var rule' :| rule' in rules' && t in rule'(sources' + target);
    }
  }

  /** More sources, a larger base or stronger rules never lose a consequence. */
  lemma ClosureMonotone(u: set<Triple>, rules: seq<Rule>, sources: set<Triple>, base: set<Triple>,
                        rules': seq<Rule>, sources': set<Triple>, base': set<Triple>)
    requires WellBehaved(u, rules) && WellBehaved(u, rules')
    requires base <= base' <= u && sources <= sources'
    requires Covered(rules, rules')
    ensures Closure(u, rules, sources, base) <= Closure(u, rules', sources', base')
  {
    var c' := Closure(u, rules', sources', base');
    ClosureHolds(u, rules', sources', base');
    ClosedOverFewerSources(u, rules, sources, rules', sources', c');
    ClosureIsLeast(u, rules, sources, base, c');
  }

  /** Starting from consequences already drawn changes nothing: extending equals rebuilding. */
  lemma ExtendingEqualsRebuilding(u: set<Triple>, rules: seq<Rule>, sources: set<Triple>, base: set<Triple>,
                                  drawn: set<Triple>)
    requires WellBehaved(u, rules)
    requires base <= drawn <= u && drawn <= Closure(u, rules, sources, base)
    ensures Closure(u, rules, sources, drawn) == Closure(u, rules, sources, base)
  {
    ClosureHolds(u, rules, sources, base);
    ClosureHolds(u, rules, sources, drawn);
    ClosureIsLeast(u, rules, sources, base, Closure(u, rules, sources, drawn));
    ClosureIsLeast(u, rules, sources, drawn, Closure(u, rules, sources, base));
  }

  lemma SubsetSize<T>(a: set<T>, b: set<T>)
    requires a <= b
    ensures |b| == |a| + |b - a|
  {
    assert b == a + (b - a);
  }

  /** A larger set leaves strictly less of the universe out. */
  lemma GrowthShrinksRest<T>(u: set<T>, a: set<T>, b: set<T>)
    requires a < b <= u
    ensures |u - b| < |u - a|
  {
    SubsetSize(u - b, u - a);
    assert (u - a) - (u - b) == b - a;
    var t :| t in b - a;
  }
}
