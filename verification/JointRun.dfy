/** SWRL rules and an entailment regime by turns, each as an engine that runs its rules to
    their closure, against the closure of both together. */
module JointRun {
  import opened Rdf
  import opened FixedPoint

  /** The loop gives up after this many rounds. */
  const MAX_JOINT_ROUNDS: nat := 32

  /** Why a run stopped short. */
  datatype Stop = AuxNotInstalled | RegimeFailed | RulesFailed | RulesStopped | NoJointFixedPoint

  /** One pass of the rules: what it inferred, in how many iterations, whether the last of
      them added nothing, and which rules failed in any of them. */
  datatype Pass = Pass(inferred: nat, iterations: nat, converged: bool, failed: set<nat>)

  /** The report of a joint run. `last` is how its latest pass of the rules went. */
  datatype Run = Run(
    rulesTriples: nat,
    regimeTriples: nat,
    rounds: nat,
    converged: bool,
    error: Option<Stop>,
    last: Option<Pass>)
  {
    /** The rules that failed in the last pass. */
    function Failed(): set<nat> {
      if last.Some? then last.value.failed else {}
    }
  }

  /** What goes wrong in one pass: whether counting the target fails (at the start, in an
      iteration, at the end), whether time is up before rule `k` of iteration `i`, and
      whether that rule fails. */
  datatype Faults = Faults(counting: nat -> bool, expired: (nat, nat) -> bool, rule: (nat, nat) -> bool)
  {
    /** Nothing goes wrong but rules that fail. */
    ghost predicate Unhindered() {
      (forall i :: !counting(i)) && forall i, k :: !expired(i, k)
    }

    ghost predicate NoRuleFails() {
      forall i, k :: !rule(i, k)
    }
  }

  /** What goes wrong in a joint run: writing the auxiliary axioms, the pass of the rules of
      each round, and the pass of the regime after it (number 0: before the first). */
  datatype JointFaults = JointFaults(aux: bool, rules: nat -> Faults, regime: nat -> Faults)
  {
    ghost predicate Unhindered() {
      !aux && forall n :: rules(n).Unhindered() && regime(n).Unhindered() && regime(n).NoRuleFails()
    }

    ghost predicate NoRuleFails() {
      forall n :: rules(n).NoRuleFails()
    }
  }

  /** The target graph of a run, in the store. */
  class InferenceGraph {
    var triples: set<Triple>

    constructor ()
      ensures triples == {}
    {
      triples := {};
    }
  }

  /** Both engines as one: closed under these is closed under the rules and the regime. */
  function Joint(rules: seq<Rule>, regime: Option<seq<Rule>>): seq<Rule> {
    if regime.Some? then rules + regime.value else rules
  }

  lemma JointParts(u: set<Triple>, rules: seq<Rule>, regime: Option<seq<Rule>>)
    requires WellBehaved(u, Joint(rules, regime))
    ensures WellBehaved(u, rules) && (regime.Some? ==> WellBehaved(u, regime.value))
    ensures forall rule | rule in rules :: rule in Joint(rules, regime)
    ensures regime.Some? ==> forall rule | rule in regime.value :: rule in Joint(rules, regime)
  {
  }

  lemma JointClosed(rules: seq<Rule>, regime: Option<seq<Rule>>, sources: set<Triple>, target: set<Triple>)
    ensures Closed(Joint(rules, regime), sources, target)
            <==> Closed(rules, sources, target) && (regime.Some? ==> Closed(regime.value, sources, target))
  {
    assert forall rule :: rule in Joint(rules, regime) <==> rule in rules || (regime.Some? && rule in regime.value);
  }

  // ── One pass ──────────────────────────────────────────────────────────────

  /** Rule `k` derives nothing that `target` lacks. */
  predicate AddsNothing(rules: seq<Rule>, k: nat, sources: set<Triple>, target: set<Triple>)
    requires k < |rules|
  {
    rules[k](sources + target) <= target
  }

  /** The rules that failed derive nothing that `target` lacks. */
  ghost predicate FailedAddNothing(rules: seq<Rule>, failed: set<nat>, sources: set<Triple>, target: set<Triple>) {
    forall k: nat | k < |rules| && k in failed :: AddsNothing(rules, k, sources, target)
  }

  /** The rules that did not fail derive nothing that `target` lacks. */
  ghost predicate OthersAddNothing(rules: seq<Rule>, failed: set<nat>, sources: set<Triple>, target: set<Triple>) {
    forall k: nat | k < |rules| && k !in failed :: AddsNothing(rules, k, sources, target)
  }

  lemma ClosedInTwoParts(rules: seq<Rule>, failed: set<nat>, sources: set<Triple>, target: set<Triple>)
    ensures Closed(rules, sources, target)
            <==> FailedAddNothing(rules, failed, sources, target) && OthersAddNothing(rules, failed, sources, target)
  {
    if FailedAddNothing(rules, failed, sources, target) && OthersAddNothing(rules, failed, sources, target) {
      forall rule | rule in rules
        ensures rule(sources + target) <= target
      {
        var k :| 0 <= k < |rules| && rules[k] == rule;
        assert AddsNothing(rules, k, sources, target);
      }
    }
  }

  /** The rules that failed in one of the first `n` iterations. */
  ghost predicate FailedIn(faults: Faults, n: nat, k: nat) {
    exists i: nat :: 1 <= i <= n && faults.rule(i, k)
  }

  /** Nothing goes wrong but rules that fail, and no rule that runs in the first iteration
      has anything to add. */
  ghost predicate Idle(rules: seq<Rule>, faults: Faults, sources: set<Triple>, target: set<Triple>) {
    && faults.Unhindered()
    && forall k: nat | k < |rules| :: faults.rule(1, k) || AddsNothing(rules, k, sources, target)
  }

  /** One iteration: every rule in turn adds what it derives, unless it fails. */
  method Iteration(rules: seq<Rule>, sources: set<Triple>, g: InferenceGraph, n: nat, faults: Faults,
                   failedBefore: set<nat>, ghost bound: set<Triple>)
    returns (timeout: bool, failed: set<nat>)
    requires forall rule | rule in rules :: Monotone(rule)
    requires g.triples <= bound && Closed(rules, sources, bound)
    modifies g
    ensures old(g.triples) <= g.triples <= bound
    ensures forall k | k in failed :: k in failedBefore || (k < |rules| && faults.rule(n, k))
    ensures failedBefore <= failed
    ensures !timeout ==> forall k: nat | k < |rules| :: faults.rule(n, k) ==> k in failed
    ensures !timeout && g.triples == old(g.triples) ==>
              forall k: nat | k < |rules| && !faults.rule(n, k) :: AddsNothing(rules, k, sources, g.triples)
    ensures (forall k: nat | k < |rules| :: faults.rule(n, k) || AddsNothing(rules, k, sources, old(g.triples)))
            ==> g.triples == old(g.triples)
    ensures (forall k :: !faults.expired(n, k)) ==> !timeout
  {
    ghost var before := g.triples;
    failed := failedBefore;
    for k := 0 to |rules|
      invariant before <= g.triples <= bound && failedBefore <= failed
      invariant forall j | j in failed :: j in failedBefore || (j < k && faults.rule(n, j))
      invariant forall j | 0 <= j < k ::
                  if faults.rule(n, j) then j in failed else rules[j](sources + before) <= g.triples
      invariant (forall j | 0 <= j < |rules| :: faults.rule(n, j) || AddsNothing(rules, j, sources, before))
                ==> g.triples == before
    {
      if faults.expired(n, k) {
        return true, failed;
      }
      if faults.rule(n, k) {
        failed := failed + {k};
      } else {
        assert rules[k] in rules;
        MonotoneStep(rules[k], sources + before, sources + g.triples);
        MonotoneStep(rules[k], sources + g.triples, sources + bound);
        g.triples := g.triples + rules[k](sources + g.triples);
      }
    }
    timeout := false;
  }

  /** One pass of the rules over `sources` into `g`: iterations over all of them until one
      adds nothing, the cap is reached, or time runs out. A rule that fails is noted and
      the iteration goes on; a count that fails ends the pass (`None`). What was written
      by then stays. `bound` is any set closed under the rules: a pass never leaves it. */
  method RunRules(rules: seq<Rule>, sources: set<Triple>, g: InferenceGraph, maxIterations: nat, faults: Faults,
                  ghost bound: set<Triple>)
    returns (pass: Option<Pass>)
    requires forall rule | rule in rules :: Monotone(rule)
    requires g.triples <= bound && Closed(rules, sources, bound)
    modifies g
    ensures old(g.triples) <= g.triples <= bound
    ensures Closed(rules, sources, old(g.triples)) ==> g.triples == old(g.triples)
    ensures pass.Some? ==> pass.value.inferred == |g.triples| - |old(g.triples)|
    ensures pass.Some? ==>
              forall k | k in pass.value.failed :: k < |rules| && FailedIn(faults, pass.value.iterations, k)
    // Converged, the target is closed under the rules that did not fail in the last iteration.
    ensures pass.Some? && pass.value.converged ==>
              && pass.value.iterations > 0
              && (forall k: nat | k < |rules| && FailedIn(faults, pass.value.iterations, k) :: k in pass.value.failed)
              && (forall k: nat | k < |rules| && !faults.rule(pass.value.iterations, k) ::
                  AddsNothing(rules, k, sources, g.triples))
    // Rules that fail are no obstacle to convergence.
    ensures maxIterations > 0 && Idle(rules, faults, sources, old(g.triples)) ==>
              pass.Some? && pass.value.converged && pass.value.iterations == 1 && g.triples == old(g.triples)
    // Nor is anything else, with an iteration to spare for each triple there is to add.
    ensures faults.Unhindered() && maxIterations > |bound| - |old(g.triples)| ==> pass.Some? && pass.value.converged
  {
    ghost var start := g.triples;
    var startCount := |g.triples|;
    if faults.counting(0) {
      return None;
    }
    var iterations: nat, failed: set<nat> := 0, {};
    var converged := false;
    while iterations < maxIterations && !converged
      invariant start <= g.triples <= bound
      invariant Closed(rules, sources, start) ==> g.triples == start
      invariant forall k | k in failed :: k < |rules| && FailedIn(faults, iterations, k)
      invariant forall k: nat | k < |rules| && FailedIn(faults, iterations, k) :: k in failed
      invariant converged ==> iterations > 0
      invariant converged ==>
                  forall k: nat | k < |rules| && !faults.rule(iterations, k) ::
                    AddsNothing(rules, k, sources, g.triples)
      invariant iterations == 0 ==> g.triples == start
      invariant !converged ==> iterations <= |g.triples| - |start|
      invariant Idle(rules, faults, sources, start) && iterations > 0 ==>
                  converged && iterations == 1 && g.triples == start
      decreases maxIterations - iterations, !converged
    {
      if faults.expired(iterations, |rules|) {
        break;
      }
      iterations := iterations + 1;
      ghost var before := g.triples;
      var countBefore := |g.triples|;
      if faults.counting(iterations) {
        return None;
      }
      ghost var failedBefore := failed;
      ClosedInTwoParts(rules, {}, sources, before);
      var timeout;
      timeout, failed := Iteration(rules, sources, g, iterations, faults, failed, bound);
      FailedSoFar(rules, faults, iterations, failedBefore, failed);
      if timeout {
        SubsetSize(start, g.triples);
        return if faults.counting(maxIterations + 1) then None
          else Some(Pass(|g.triples| - startCount, iterations, false, failed));
      }
      SubsetSize(before, g.triples);
      if |g.triples| == countBefore {
        assert g.triples == before;
        converged := true;
      }
    }
    SubsetSize(g.triples, bound);
    if faults.counting(maxIterations + 1) {
      return None;
    }
    SubsetSize(start, g.triples);
    pass := Some(Pass(|g.triples| - startCount, iterations, converged, failed));
  }

  lemma FailedSoFar(rules: seq<Rule>, faults: Faults, n: nat, before: set<nat>, failed: set<nat>)
    requires n > 0 && before <= failed
    requires forall k | k in before :: k < |rules| && FailedIn(faults, n - 1, k)
    requires forall k: nat | k < |rules| && FailedIn(faults, n - 1, k) :: k in before
    requires forall k | k in failed :: k in before || (k < |rules| && faults.rule(n, k))
    ensures forall k | k in failed :: k < |rules| && FailedIn(faults, n, k)
    ensures (forall k: nat | k < |rules| :: faults.rule(n, k) ==> k in failed) ==>
              forall k: nat | k < |rules| && FailedIn(faults, n, k) :: k in failed
  {
    forall k: nat | k < |rules|
      ensures FailedIn(faults, n, k) <==> FailedIn(faults, n - 1, k) || faults.rule(n, k)
    {
      if FailedIn(faults, n - 1, k) {
        var i: nat :| 1 <= i <= n - 1 && faults.rule(i, k);
        assert i <= n && faults.rule(i, k);
      }
    }
  }

  /** A pass of the rules, against their closure: it makes just that of the target, if it
      converges and no rule fails. */
  method RulesPass(ghost u: set<Triple>, rules: seq<Rule>, sources: set<Triple>, g: InferenceGraph, maxIterations: nat,
                   faults: Faults, ghost bound: set<Triple>)
    returns (pass: Option<Pass>)
    requires WellBehaved(u, rules) && g.triples <= bound <= u && Closed(rules, sources, bound)
    modifies g
    ensures old(g.triples) <= g.triples <= bound
    ensures g.triples <= Closure(u, rules, sources, old(g.triples))
    ensures Closed(rules, sources, old(g.triples)) ==> g.triples == old(g.triples)
    ensures pass.Some? ==> pass.value.inferred == |g.triples| - |old(g.triples)|
    ensures pass.Some? && pass.value.converged ==>
              && pass.value.iterations > 0
              && OthersAddNothing(rules, pass.value.failed, sources, g.triples)
              && FailuresOf(rules, faults, pass.value)
    ensures pass.Some? && pass.value.converged && faults.NoRuleFails() ==>
              g.triples == Closure(u, rules, sources, old(g.triples))
    ensures maxIterations > 0 && Idle(rules, faults, sources, old(g.triples)) ==>
              pass.Some? && pass.value.converged && g.triples == old(g.triples)
    ensures faults.Unhindered() && maxIterations > |bound| - |old(g.triples)| ==> pass.Some? && pass.value.converged
  {
    ghost var start := g.triples;
    ghost var c := Closure(u, rules, sources, start);
    ClosureHolds(u, rules, sources, start);
    ClosureIsLeast(u, rules, sources, start, bound);
    SubsetSize(c, bound);
    pass := RunRules(rules, sources, g, maxIterations, faults, c);
    if pass.Some? && pass.value.converged && faults.NoRuleFails() {
      ClosedInTwoParts(rules, {}, sources, g.triples);
      ClosedWithinIsClosure(u, rules, sources, start, g.triples);
    }
  }

  /** The failures a pass reports are all of its failures, and no others. */
  ghost predicate FailuresOf(rules: seq<Rule>, faults: Faults, pass: Pass) {
    && (forall k | k in pass.failed :: k < |rules| && FailedIn(faults, pass.iterations, k))
    && (forall k: nat | k < |rules| && FailedIn(faults, pass.iterations, k) :: k in pass.failed)
  }

  /** A regime pass: what it added, or `None` when it failed or stopped short. A rule of
      the regime that fails ends the pass; an unhindered pass makes the regime's closure. */
  method RegimePass(ghost u: set<Triple>, regime: seq<Rule>, sources: set<Triple>, g: InferenceGraph,
                    maxIterations: nat, faults: Faults, ghost bound: set<Triple>)
    returns (added: Option<nat>)
    requires WellBehaved(u, regime) && g.triples <= bound <= u && Closed(regime, sources, bound)
    modifies g
    ensures old(g.triples) <= g.triples <= bound
    ensures added.Some? ==> added.value == |g.triples| - |old(g.triples)| && Closed(regime, sources, g.triples)
    ensures added.Some? ==> g.triples == Closure(u, regime, sources, old(g.triples))
    ensures faults.Unhindered() && faults.NoRuleFails() && maxIterations > |bound| - |old(g.triples)| ==> added.Some?
  {
    var stops := Faults(faults.counting, (i: nat, k: nat) => faults.expired(i, k) || faults.rule(i, k),
                        (i, k) => false);
    var pass := RulesPass(u, regime, sources, g, maxIterations, stops, bound);
    if pass.Some? && pass.value.converged {
      assert stops.NoRuleFails();
      ClosedInTwoParts(regime, pass.value.failed, sources, g.triples);
      return Some(pass.value.inferred);
    }
    return None;
  }

  // ── Rules and regime by turns ─────────────────────────────────────────────

  /** Whether a converged run leaves nothing for the regime: there is no regime, it ran
      first or for new auxiliary axioms, the rules had something to add (and so it ran
      after them, unless the rules failed), or it had nothing to add on entry. */
  ghost predicate RegimeSettled(rules: seq<Rule>, regime: Option<seq<Rule>>, regimeFirst: bool, sources: set<Triple>,
                                aux: set<Triple>, before: set<Triple>)
  {
    || regime.None? || regimeFirst || !(aux <= before)
    || !Closed(rules, sources, before) || Closed(regime.value, sources, before)
  }

  /** One pass that was counted: of the rules or of the regime, from one target to the next. */
  datatype Leg = Leg(byRules: bool, before: set<Triple>, after: set<Triple>)

  /** What the passes of a run work on. */
  datatype Setting = Setting(u: set<Triple>, rules: seq<Rule>, regime: Option<seq<Rule>>, sources: set<Triple>)
  {
    /** A pass adds only consequences of the engine it is said to be of: all of them, if it
        is of the regime, or if no rule fails and none runs out of time (`exact`). */
    ghost predicate IsLeg(exact: bool, leg: Leg) {
      && leg.before <= leg.after
      && (leg.byRules ==> leg.after <= Closure(u, rules, sources, leg.before))
      && (leg.byRules && exact ==> leg.after == Closure(u, rules, sources, leg.before))
      && (!leg.byRules ==> regime.Some? && leg.after == Closure(u, regime.value, sources, leg.before))
    }

    /** Counted passes from `start` on, each from where the one before led, by turns. */
    ghost predicate AreLegs(exact: bool, start: set<Triple>, legs: seq<Leg>) {
      forall i | 0 <= i < |legs| :: IsLegAt(exact, start, legs, i)
    }

    ghost predicate IsLegAt(exact: bool, start: set<Triple>, legs: seq<Leg>, i: nat)
      requires i < |legs|
    {
      && IsLeg(exact, legs[i])
      && legs[i].before == LedTo(start, legs[..i])
      && (i > 0 ==> legs[i].byRules != legs[i - 1].byRules)
    }

    /** The report of a run counts for each engine what its passes added, and nothing else. */
    ghost predicate Accounted(exact: bool, start: set<Triple>, legs: seq<Leg>, run: Run) {
      && AreLegs(exact, start, legs)
      && run.rulesTriples == AddedBy(legs, true) && run.regimeTriples == AddedBy(legs, false)
    }

    /** So far, after `n` passes of the rules, and with one of them next. */
    ghost predicate Underway(exact: bool, start: set<Triple>, legs: seq<Leg>, run: Run, target: set<Triple>, n: nat) {
      && Accounted(exact, start, legs, run)
      && LedTo(start, legs) == target && RulePasses(legs) == n && (legs != [] ==> !legs[|legs| - 1].byRules)
    }
  }

  /** What the passes of one engine added, all together. */
  function AddedBy(legs: seq<Leg>, byRules: bool): int {
    if legs == [] then 0
    else
      var last := legs[|legs| - 1];
      AddedBy(legs[..|legs| - 1], byRules) + if last.byRules == byRules then |last.after| - |last.before| else 0
  }

  function RulePasses(legs: seq<Leg>): nat {
    if legs == [] then 0 else RulePasses(legs[..|legs| - 1]) + if legs[|legs| - 1].byRules then 1 else 0
  }

  /** Where counted passes have led to. */
  function LedTo(start: set<Triple>, legs: seq<Leg>): set<Triple> {
    if legs == [] then start else legs[|legs| - 1].after
  }

  /** More passes after `earlier`, starting with the rules. */
  predicate GoesOn(earlier: seq<Leg>, legs: seq<Leg>) {
    earlier <= legs && (|earlier| < |legs| ==> legs[|earlier|].byRules)
  }

  lemma OneMoreLeg(s: Setting, exact: bool, start: set<Triple>, legs: seq<Leg>, leg: Leg)
    requires s.AreLegs(exact, start, legs) && s.IsLeg(exact, leg)
    requires leg.before == LedTo(start, legs) && (legs != [] ==> leg.byRules != legs[|legs| - 1].byRules)
    ensures s.AreLegs(exact, start, legs + [leg])
  {
    var more := legs + [leg];
    forall i | 0 <= i < |more|
      ensures s.IsLegAt(exact, start, more, i)
    {
      assert more[..i] == legs[..i];
      assert i < |legs| ==> s.IsLegAt(exact, start, legs, i);
      assert legs[..|legs|] == legs;
    }
  }

  lemma OneMoreIsAdded(legs: seq<Leg>, leg: Leg)
    ensures AddedBy(legs + [leg], leg.byRules) == AddedBy(legs, leg.byRules) + |leg.after| - |leg.before|
    ensures AddedBy(legs + [leg], !leg.byRules) == AddedBy(legs, !leg.byRules)
    ensures RulePasses(legs + [leg]) == RulePasses(legs) + if leg.byRules then 1 else 0
  {
    assert (legs + [leg])[..|legs|] == legs;
  }

  /** A pass of the rules in a round, counted. */
  lemma RulesCount(s: Setting, exact: bool, start: set<Triple>, legs: seq<Leg>, before: Run, entry: set<Triple>,
                   n: nat, run: Run, left: set<Triple>)
    requires s.Underway(exact, start, legs, before, entry, n) && s.IsLeg(exact, Leg(true, entry, left))
    requires run.rulesTriples == before.rulesTriples + |left| - |entry| && run.regimeTriples == before.regimeTriples
    ensures var more := legs + [Leg(true, entry, left)];
            s.Accounted(exact, start, more, run) && LedTo(start, more) == left && RulePasses(more) == n + 1
    ensures forall earlier | GoesOn(earlier, legs) :: GoesOn(earlier, legs + [Leg(true, entry, left)])
  {
    OneMoreLeg(s, exact, start, legs, Leg(true, entry, left));
    OneMoreIsAdded(legs, Leg(true, entry, left));
  }

  /** A pass of the regime, counted after one of the rules, or before any. */
  lemma RegimeCounts(s: Setting, exact: bool, start: set<Triple>, legs: seq<Leg>, before: Run, n: nat, run: Run,
                     left: set<Triple>)
    requires s.Accounted(exact, start, legs, before) && RulePasses(legs) == n
    requires s.IsLeg(exact, Leg(false, LedTo(start, legs), left)) && (legs != [] ==> legs[|legs| - 1].byRules)
    requires run.regimeTriples == before.regimeTriples + |left| - |LedTo(start, legs)|
    requires run.rulesTriples == before.rulesTriples
    ensures s.Underway(exact, start, legs + [Leg(false, LedTo(start, legs), left)], run, left, n)
    ensures forall earlier | GoesOn(earlier, legs) && |earlier| < |legs| ::
              GoesOn(earlier, legs + [Leg(false, LedTo(start, legs), left)])
  {
    OneMoreLeg(s, exact, start, legs, Leg(false, LedTo(start, legs), left));
    OneMoreIsAdded(legs, Leg(false, LedTo(start, legs), left));
  }

  /** Where no rule fails, two passes at a time make the rounds of the alternation. */
  lemma {:induction false} LegsMakeRounds(s: Setting, start: set<Triple>, legs: seq<Leg>, n: nat)
    requires s.AreLegs(true, start, legs) && |legs| == 2 * n && (n > 0 ==> legs[0].byRules) && s.regime.Some?
    ensures LedTo(start, legs) == Rounds(s.u, s.rules, s.regime.value, s.sources, start, n)
    ensures n > 0 ==> !legs[|legs| - 1].byRules
  {
    if n > 0 {
      var shorter := legs[..|legs| - 2];
      forall i | 0 <= i < |shorter|
        ensures s.IsLegAt(true, start, shorter, i)
      {
        assert s.IsLegAt(true, start, legs, i) && shorter[..i] == legs[..i];
      }
      LegsMakeRounds(s, start, shorter, n - 1);
      assert s.IsLegAt(true, start, legs, |legs| - 2) && s.IsLegAt(true, start, legs, |legs| - 1);
      assert legs[..|legs| - 1][|legs| - 2] == legs[|legs| - 2];
      IterateOnceMore(AsRound(s.u, s.rules, s.regime.value, s.sources), start, n - 1);
    }
  }

  /** So does a last pass of the rules alone, if it leaves nothing to the regime. */
  lemma LastLegMakesARound(s: Setting, start: set<Triple>, legs: seq<Leg>, n: nat)
    requires s.AreLegs(true, start, legs) && |legs| == 2 * n + 1 && legs[0].byRules && s.regime.Some?
    requires WellBehaved(s.u, s.regime.value) && LedTo(start, legs) <= s.u
    requires Closed(s.regime.value, s.sources, LedTo(start, legs))
    ensures LedTo(start, legs) == Rounds(s.u, s.rules, s.regime.value, s.sources, start, n + 1)
  {
    var shorter := legs[..2 * n];
    forall i | 0 <= i < |shorter|
      ensures s.IsLegAt(true, start, shorter, i)
    {
      assert s.IsLegAt(true, start, legs, i) && shorter[..i] == legs[..i];
    }
    LegsMakeRounds(s, start, shorter, n);
    assert s.IsLegAt(true, start, legs, 2 * n);
    ClosedIsItsClosure(s.u, s.regime.value, s.sources, LedTo(start, legs));
    IterateOnceMore(AsRound(s.u, s.rules, s.regime.value, s.sources), start, n);
  }

  /** Alternate rules and regime in `g`, rules first, until neither adds anything.
      `regimeTriples` is what the regime had added before, in the passes `earlier` from
      `first` on. */
  method Alternate(ghost u: set<Triple>, rules: seq<Rule>, sources: set<Triple>, g: InferenceGraph,
                   regime: Option<seq<Rule>>, maxIterations: nat, regimeIterations: nat, regimeTriples: nat,
                   faults: JointFaults, ghost bound: set<Triple>, ghost first: set<Triple>, ghost earlier: seq<Leg>)
    returns (run: Run, ghost legs: seq<Leg>)
    requires WellBehaved(u, rules) && (regime.Some? ==> WellBehaved(u, regime.value))
    requires g.triples <= bound <= u && Closed(rules, sources, bound)
    requires regime.Some? ==> Closed(regime.value, sources, bound)
    requires Setting(u, rules, regime, sources).Underway(faults.NoRuleFails(), first, earlier,
                                                         Run(0, regimeTriples, 0, false, None, None), g.triples, 0)
    modifies g
    // The report counts what the passes added, of which the next is one of the rules.
    ensures Setting(u, rules, regime, sources).Accounted(Exact(faults, run), first, legs, run)
    ensures GoesOn(earlier, legs)
    ensures run.converged ==> LedTo(first, legs) == g.triples && RulePasses(legs) == run.rounds
    ensures regime.None? ==> run.regimeTriples == regimeTriples
    ensures Closed(rules, sources, old(g.triples)) ==> run.rulesTriples == 0
    ensures run.rounds <= MAX_JOINT_ROUNDS && run.error != Some(AuxNotInstalled)
    ensures run.converged <==> run.error.None?
    ensures old(g.triples) <= g.triples <= bound
    ensures |old(g.triples)| + run.rulesTriples + run.regimeTriples <= |g.triples| + regimeTriples
    ensures run.converged ==> |g.triples| + regimeTriples == |old(g.triples)| + run.rulesTriples + run.regimeTriples
    ensures run.converged ==> OthersAddNothing(rules, run.Failed(), sources, g.triples)
    ensures run.converged && regime.Some? && run.rulesTriples > 0 ==> Closed(regime.value, sources, g.triples)
    ensures run.converged && run.rulesTriples == 0 ==> g.triples == old(g.triples)
    ensures FailuresAreTheRules(rules, faults.rules, run)
    ensures maxIterations > 0 && Idle(rules, faults.rules(1), sources, old(g.triples)) ==>
              run.converged && g.triples == old(g.triples)
    // Every round but the last adds a triple by the rules and one by the regime.
    ensures run.error == Some(NoJointFixedPoint) ==> |g.triples| >= |old(g.triples)| + 2 * MAX_JOINT_ROUNDS
    // Unhindered, with enough iterations, there is no other way to stop short.
    ensures Unhindered(faults, maxIterations, regimeIterations, bound, old(g.triples)) ==>
              run.error.None? || run.error == Some(NoJointFixedPoint)
  {
    ghost var start := g.triples;
    ghost var idle := maxIterations > 0 && Idle(rules, faults.rules(1), sources, start);
    ghost var s, exact := Setting(u, rules, regime, sources), faults.NoRuleFails();
    var sofar := Run(0, regimeTriples, 0, false, None, None);
    ghost var passes := earlier;
    for round := 1 to MAX_JOINT_ROUNDS + 1
      invariant start <= g.triples <= bound
      invariant sofar.rounds == round - 1 && !sofar.converged && sofar.error.None?
      invariant |g.triples| + regimeTriples == |start| + sofar.rulesTriples + sofar.regimeTriples
      invariant |g.triples| >= |start| + 2 * (round - 1)
      invariant round == 1 ==> g.triples == start && sofar.rulesTriples == 0
      invariant round > 1 ==> regime.Some? && sofar.rulesTriples > 0 && Closed(regime.value, sources, g.triples)
      invariant round > 1 ==> !Closed(rules, sources, start)
      invariant idle ==> round == 1
      invariant s.Underway(exact, first, passes, sofar, g.triples, round - 1)
      invariant GoesOn(earlier, passes)
      invariant regime.None? ==> sofar.regimeTriples == regimeTriples
    {
      sofar, passes := Turn(u, rules, sources, g, regime, maxIterations, regimeIterations, sofar, round,
                            faults.rules(round), faults.regime(round),
                            bound, exact, first, passes);
      if sofar.converged || sofar.error.Some? {
        return sofar, passes;
      }
    }
    run, legs := sofar.(error := Some(NoJointFixedPoint)), passes;
  }

  /** Whether every pass that is counted went to its end, with no rule failing. */
  ghost predicate Exact(faults: JointFaults, run: Run) {
    faults.NoRuleFails() && run.error != Some(RulesStopped)
  }

  /** One round: a pass of the rules and, if it added anything, one of the regime. The run
      goes on if both added something. */
  method Turn(ghost u: set<Triple>, rules: seq<Rule>, sources: set<Triple>, g: InferenceGraph,
              regime: Option<seq<Rule>>, maxIterations: nat, regimeIterations: nat, before: Run, round: nat,
              ruleFaults: Faults, regimeFaults: Faults, ghost bound: set<Triple>, ghost exact: bool,
              ghost first: set<Triple>, ghost earlier: seq<Leg>)
    returns (run: Run, ghost legs: seq<Leg>)
    requires WellBehaved(u, rules) && (regime.Some? ==> WellBehaved(u, regime.value))
    requires g.triples <= bound <= u && Closed(rules, sources, bound)
    requires regime.Some? ==> Closed(regime.value, sources, bound)
    requires !before.converged && before.error.None? && (exact ==> ruleFaults.NoRuleFails()) && round > 0
    requires Setting(u, rules, regime, sources).Underway(exact, first, earlier, before, g.triples, round - 1)
    modifies g
    ensures var s := Setting(u, rules, regime, sources);
            && s.Accounted(exact && run.error != Some(RulesStopped), first, legs, run)
            && (!run.converged && run.error.None? ==> s.Underway(exact, first, legs, run, g.triples, round))
    ensures run.error.None? ==> LedTo(first, legs) == g.triples && RulePasses(legs) == round
    ensures GoesOn(earlier, legs)
    ensures regime.None? ==> run.regimeTriples == before.regimeTriples
    ensures Closed(rules, sources, old(g.triples)) ==> run.rulesTriples == before.rulesTriples
    ensures old(g.triples) <= g.triples <= bound
    ensures run.rounds == round && run.error != Some(NoJointFixedPoint) && run.error != Some(AuxNotInstalled)
    ensures !(run.converged && run.error.Some?)
    ensures before.rulesTriples <= run.rulesTriples && before.regimeTriples <= run.regimeTriples
    ensures |old(g.triples)| + run.rulesTriples + run.regimeTriples
            <= |g.triples| + before.rulesTriples + before.regimeTriples
    ensures run.error.None? ==>
              |old(g.triples)| + run.rulesTriples + run.regimeTriples
              == |g.triples| + before.rulesTriples + before.regimeTriples
    ensures !run.converged && run.error.None? ==>
              && regime.Some? && Closed(regime.value, sources, g.triples)
              && run.rulesTriples > before.rulesTriples && run.regimeTriples > before.regimeTriples
              && !Closed(rules, sources, old(g.triples))
    ensures run.converged ==>
              && run.last.Some? && run.last.value.iterations > 0 && FailuresOf(rules, ruleFaults, run.last.value)
              && OthersAddNothing(rules, run.Failed(), sources, g.triples)
              && (run.rulesTriples == before.rulesTriples ==> g.triples == old(g.triples))
              && (run.rulesTriples > before.rulesTriples && regime.Some? ==> Closed(regime.value, sources, g.triples))
    ensures maxIterations > 0 && Idle(rules, ruleFaults, sources, old(g.triples)) ==>
              run.converged && g.triples == old(g.triples)
    ensures ruleFaults.Unhindered() && regimeFaults.Unhindered() && regimeFaults.NoRuleFails()
            && maxIterations > |bound| - |old(g.triples)| && regimeIterations > |bound| - |old(g.triples)| ==>
              run.error.None?
  {
    ghost var s, entry := Setting(u, rules, regime, sources), g.triples;
    run, legs := RulesTurn(s, rules, sources, g, maxIterations, before, round, ruleFaults, bound, exact, first,
                           earlier);
    // With nothing new from the rules, there is nothing new for the regime either.
    if run.error.Some? || run.converged {
      return;
    }
    if regime.None? {
      return run.(converged := true), legs;
    }
    ghost var midway, mid := run, g.triples;
    var added := RegimePass(u, regime.value, sources, g, regimeIterations, regimeFaults, bound);
    SubsetSize(mid, g.triples);
    if added.None? {
      return run.(error := Some(RegimeFailed)), legs;
    }
    run := run.(regimeTriples := run.regimeTriples + added.value, converged := added.value == 0);
    RegimeCounts(s, exact, first, legs, midway, round, run, g.triples);
    assert run.converged ==> g.triples == mid;
    legs := legs + [Leg(false, mid, g.triples)];
  }

  /** The first half of a round: the pass of the rules. */
  method RulesTurn(ghost s: Setting, rules: seq<Rule>, sources: set<Triple>, g: InferenceGraph, maxIterations: nat,
                   before: Run, round: nat, faults: Faults, ghost bound: set<Triple>, ghost exact: bool,
                   ghost first: set<Triple>, ghost earlier: seq<Leg>)
    returns (run: Run, ghost legs: seq<Leg>)
    requires s.rules == rules && s.sources == sources && WellBehaved(s.u, rules)
    requires g.triples <= bound <= s.u && Closed(rules, sources, bound)
    requires !before.converged && before.error.None? && (exact ==> faults.NoRuleFails()) && round > 0
    requires s.Underway(exact, first, earlier, before, g.triples, round - 1)
    modifies g
    ensures s.Accounted(exact && run.error != Some(RulesStopped), first, legs, run)
    ensures run.error.None? ==>
              && LedTo(first, legs) == g.triples && RulePasses(legs) == round
              && |legs| > |earlier| && legs[|legs| - 1].byRules
    ensures GoesOn(earlier, legs)
    ensures run == before.(rulesTriples := run.rulesTriples, rounds := round, converged := run.converged,
                           error := run.error, last := run.last)
    ensures run.error.None? || run.error == Some(RulesFailed) || run.error == Some(RulesStopped)
    ensures !(run.converged && run.error.Some?)
    ensures old(g.triples) <= g.triples <= bound && before.rulesTriples <= run.rulesTriples
    ensures |old(g.triples)| + run.rulesTriples <= |g.triples| + before.rulesTriples
    ensures run.error.None? ==> |old(g.triples)| + run.rulesTriples == |g.triples| + before.rulesTriples
    ensures run.error.None? ==> (run.converged <==> run.rulesTriples == before.rulesTriples)
    ensures run.converged ==> g.triples == old(g.triples)
    ensures Closed(rules, sources, old(g.triples)) ==> g.triples == old(g.triples)
    ensures run.error.None? ==>
              && run.last.Some? && run.last.value.iterations > 0 && FailuresOf(rules, faults, run.last.value)
              && OthersAddNothing(rules, run.Failed(), sources, g.triples)
    ensures maxIterations > 0 && Idle(rules, faults, sources, old(g.triples)) ==> run.converged
    ensures faults.Unhindered() && maxIterations > |bound| - |old(g.triples)| ==> run.error.None?
  {
    run := before.(rounds := round);
    ghost var entry := g.triples;
    var pass := RulesPass(s.u, rules, sources, g, maxIterations, faults, bound);
    SubsetSize(entry, g.triples);
    if pass.None? {
      return run.(error := Some(RulesFailed)), earlier;
    }
    run := run.(rulesTriples := run.rulesTriples + pass.value.inferred, last := pass);
    legs := earlier + [Leg(true, entry, g.triples)];
    if !pass.value.converged {
      FewerAreExact(s, exact, first, earlier);
      RulesCount(s, false, first, earlier, before, entry, round - 1, run, g.triples);
      return run.(error := Some(RulesStopped)), legs;
    }
    RulesCount(s, exact, first, earlier, before, entry, round - 1, run, g.triples);
    run := run.(converged := pass.value.inferred == 0);
    assert run.converged ==> g.triples == entry;
  }

  lemma FewerAreExact(s: Setting, exact: bool, start: set<Triple>, legs: seq<Leg>)
    requires s.AreLegs(exact, start, legs)
    ensures s.AreLegs(false, start, legs)
  {
    forall i | 0 <= i < |legs|
      ensures s.IsLegAt(false, start, legs, i)
    {
      assert s.IsLegAt(exact, start, legs, i);
    }
  }

  lemma ClosedIsItsClosure(u: set<Triple>, rules: seq<Rule>, sources: set<Triple>, target: set<Triple>)
    requires WellBehaved(u, rules) && target <= u && Closed(rules, sources, target)
    ensures Closure(u, rules, sources, target) == target
  {
    ClosureIsLeast(u, rules, sources, target, target);
    ClosureHolds(u, rules, sources, target);
  }

  /** Nothing goes wrong but rules that fail, and each pass may take an iteration for every
      triple of `bound` that the target lacks, and one more. */
  ghost predicate Unhindered(faults: JointFaults, maxIterations: nat, regimeIterations: nat, bound: set<Triple>,
                             target: set<Triple>) {
    && faults.Unhindered()
    && maxIterations > |bound| - |target| && regimeIterations > |bound| - |target|
  }

  lemma {:induction false} IterateOnceMore(f: set<Triple> -> set<Triple>, target: set<Triple>, n: nat)
    ensures Iterate(f, target, n + 1) == f(Iterate(f, target, n))
    decreases n
  {
    if n > 0 {
      IterateOnceMore(f, f(target), n - 1);
    }
  }

  /** The failures a converged run reports are those of its last pass, all of them. */
  ghost predicate FailuresAreTheRules(rules: seq<Rule>, faults: nat -> Faults, run: Run) {
    run.converged ==>
      && run.last.Some? && run.last.value.iterations > 0
      && FailuresOf(rules, faults(run.rounds), run.last.value)
  }

  /** Install the auxiliary axioms, then alternate rules and regime in `g` until neither
      adds anything. `regimeFirst` asks for a pass of the regime to begin with. `bound` is
      any set closed under both: the run never leaves it. */
  method AlternateWithin(ghost u: set<Triple>, rules: seq<Rule>, aux: set<Triple>, sources: set<Triple>,
                         g: InferenceGraph, regime: Option<seq<Rule>>, regimeFirst: bool,
                         maxIterations: nat, regimeIterations: nat, faults: JointFaults, ghost bound: set<Triple>)
    returns (run: Run, ghost legs: seq<Leg>)
    requires WellBehaved(u, rules) && (regime.Some? ==> WellBehaved(u, regime.value))
    requires g.triples + aux <= bound <= u && Closed(rules, sources, bound)
    requires regime.Some? ==> Closed(regime.value, sources, bound)
    modifies g
    ensures Setting(u, rules, regime, sources).Accounted(Exact(faults, run), old(g.triples) + aux, legs, run)
    ensures legs != [] ==> (legs[0].byRules <==> !(regime.Some? && (regimeFirst || !(aux <= old(g.triples)))))
    ensures run.converged ==> LedTo(old(g.triples) + aux, legs) == g.triples && RulePasses(legs) == run.rounds
    ensures regime.None? ==> run.regimeTriples == 0
    ensures (if legs != [] && !legs[0].byRules then Closed(rules, sources, legs[0].after)
             else Closed(rules, sources, old(g.triples) + aux)) ==> run.rulesTriples == 0
    ensures run.rounds <= 32
    ensures run.converged <==> run.error.None?
    ensures run.error == Some(AuxNotInstalled) <==> faults.aux && !(aux <= old(g.triples))
    ensures old(g.triples) <= g.triples <= bound
    ensures |old(g.triples)| + run.rulesTriples + run.regimeTriples <= |g.triples|
    ensures run.converged ==>
              |g.triples| == |old(g.triples)| + |aux - old(g.triples)| + run.rulesTriples + run.regimeTriples
    ensures run.converged ==> aux <= g.triples && OthersAddNothing(rules, run.Failed(), sources, g.triples)
    ensures run.converged && FailedAddNothing(rules, run.Failed(), sources, g.triples) && regime.Some? ==>
              (Closed(regime.value, sources, g.triples)
               <==> RegimeSettled(rules, regime, regimeFirst, sources, aux, old(g.triples)))
    ensures FailuresAreTheRules(rules, faults.rules, run)
    ensures (maxIterations > 0 && aux <= old(g.triples) && (regime.None? || !regimeFirst)
             && Idle(rules, faults.rules(1), sources, old(g.triples))) ==> run.converged && g.triples == old(g.triples)
    ensures run.error == Some(NoJointFixedPoint) ==> |g.triples| >= |old(g.triples)| + 64
    ensures Unhindered(faults, maxIterations, regimeIterations, bound, old(g.triples)) ==>
              run.error.None? || run.error == Some(NoJointFixedPoint)
  {
    ghost var before := g.triples;
    run, legs := Begin(u, rules, aux, sources, g, regime, regimeFirst, regimeIterations, faults, bound);
    ghost var entry, earlier := g.triples, legs;
    SubsetSize(before, entry);
    if run.error.Some? {
      return;
    }
    assert aux <= before ==> before + aux == before;
    run, legs := Alternate(u, rules, sources, g, regime, maxIterations, regimeIterations, run.regimeTriples, faults,
                           bound, before + aux, legs);
    assert earlier != [] ==> legs[0] == earlier[0];
    ClosedInTwoParts(rules, run.Failed(), sources, g.triples);
  }

  /** Before the first round: the auxiliary axioms are installed and, if these are new or
      `regimeFirst` asks for it, the regime runs. */
  method Begin(ghost u: set<Triple>, rules: seq<Rule>, aux: set<Triple>, sources: set<Triple>, g: InferenceGraph,
               regime: Option<seq<Rule>>, regimeFirst: bool, regimeIterations: nat, faults: JointFaults,
               ghost bound: set<Triple>)
    returns (run: Run, ghost legs: seq<Leg>)
    requires regime.Some? ==> WellBehaved(u, regime.value) && Closed(regime.value, sources, bound)
    requires g.triples + aux <= bound <= u
    modifies g
    ensures run == Run(0, run.regimeTriples, 0, false, run.error, None)
    ensures run.error == if faults.aux && !(aux <= old(g.triples)) then Some(AuxNotInstalled)
                         else if run.error.None? then None else Some(RegimeFailed)
    ensures run.error == Some(RegimeFailed) ==> regime.Some? && (regimeFirst || !(aux <= old(g.triples)))
    ensures run.error.Some? ==> legs == [] && run.regimeTriples == 0 && old(g.triples) <= g.triples <= bound
    ensures run.error.None? ==>
              && Setting(u, rules, regime, sources).Underway(faults.NoRuleFails(), old(g.triples) + aux, legs, run,
                                                             g.triples, 0)
              && old(g.triples) + aux <= g.triples <= bound
              && (legs != [] <==> regime.Some? && (regimeFirst || !(aux <= old(g.triples))))
              && (legs != [] ==> legs == [Leg(false, old(g.triples) + aux, g.triples)])
              && (legs != [] ==> Closed(regime.value, sources, g.triples))
              && (legs == [] ==> g.triples == old(g.triples) + aux && run.regimeTriples == 0)
              && |g.triples| == |old(g.triples)| + |aux - old(g.triples)| + run.regimeTriples
    ensures (!faults.aux && faults.regime(0).Unhindered() && faults.regime(0).NoRuleFails()
             && regimeIterations > |bound| - |old(g.triples)|) ==> run.error.None?
  {
    ghost var before, s := g.triples, Setting(u, rules, regime, sources);
    run, legs := Run(0, 0, 0, false, None, None), [];
    var installed := aux - g.triples;
    if |installed| > 0 && faults.aux {
      return run.(error := Some(AuxNotInstalled)), legs;
    }
    g.triples := g.triples + installed;
    SubsetSize(before, g.triples);
    assert g.triples - before == installed && g.triples == before + aux;

    if regime.Some? && (regimeFirst || |installed| > 0) {
      ghost var entry := g.triples;
      var added := RegimePass(u, regime.value, sources, g, regimeIterations, faults.regime(0), bound);
      SubsetSize(entry, g.triples);
      if added.None? {
        return run.(error := Some(RegimeFailed)), legs;
      }
      run := run.(regimeTriples := added.value);
      RegimeCounts(s, faults.NoRuleFails(), entry, [], Run(0, 0, 0, false, None, None), 0, run, g.triples);
      legs := [Leg(false, entry, g.triples)];
    }
  }

  /** The joint run, against the least joint fixed point. */
  method RunRulesJointly(ghost u: set<Triple>, rules: seq<Rule>, aux: set<Triple>, sources: set<Triple>,
                         g: InferenceGraph, regime: Option<seq<Rule>>, regimeFirst: bool,
                         maxIterations: nat, regimeIterations: nat, faults: JointFaults)
    returns (run: Run, ghost legs: seq<Leg>)
    requires WellBehaved(u, Joint(rules, regime)) && g.triples <= u && aux <= u
    modifies g
    ensures run.rounds <= 32
    ensures run.converged <==> run.error.None?
    // Nothing is lost, and nothing but consequences is added, however the run ends.
    ensures old(g.triples) <= g.triples <= Closure(u, Joint(rules, regime), sources, old(g.triples) + aux)
    // A converged run leaves the least joint fixed point exactly when the regime was settled
    // and the rules that failed in the last pass have nothing to add.
    ensures run.converged ==>
              (g.triples == Closure(u, Joint(rules, regime), sources, old(g.triples) + aux)
               <==> && RegimeSettled(rules, regime, regimeFirst, sources, aux, old(g.triples))
                    && FailedAddNothing(rules, run.Failed(), sources, g.triples))
    ensures FailuresAreTheRules(rules, faults.rules, run)
    // The report counts for each engine what its passes added, one by one, the regime's
    // first if it had to go first.
    ensures Setting(u, rules, regime, sources).AreLegs(Exact(faults, run), old(g.triples) + aux, legs)
    ensures run.rulesTriples == AddedBy(legs, true) && run.regimeTriples == AddedBy(legs, false)
    ensures legs != [] ==> (legs[0].byRules <==> !(regime.Some? && (regimeFirst || !(aux <= old(g.triples)))))
    ensures run.converged ==> LedTo(old(g.triples) + aux, legs) == g.triples && RulePasses(legs) == run.rounds
    ensures regime.None? ==> run.regimeTriples == 0
    ensures (if legs != [] && !legs[0].byRules then Closed(rules, sources, legs[0].after)
             else Closed(rules, sources, old(g.triples) + aux)) ==> run.rulesTriples == 0
    // It accounts for every triple of a converged run, and never over-counts.
    ensures |old(g.triples)| + run.rulesTriples + run.regimeTriples <= |g.triples|
    ensures run.converged ==>
              |g.triples| == |old(g.triples)| + |aux - old(g.triples)| + run.rulesTriples + run.regimeTriples
    // Unhindered, with enough iterations, a run for fewer consequences than two for each
    // round converges, and if no rule fails and the regime was settled, on all of them.
    ensures var c := Closure(u, Joint(rules, regime), sources, old(g.triples) + aux);
            Unhindered(faults, maxIterations, regimeIterations, c, old(g.triples))
            && |c| - |old(g.triples)| < 64 ==>
              && run.converged
              && (faults.NoRuleFails() && RegimeSettled(rules, regime, regimeFirst, sources, aux, old(g.triples)) ==>
                    g.triples == c)
    // A run gives up only after that many.
    ensures run.error == Some(NoJointFixedPoint) ==> |g.triples| >= |old(g.triples)| + 64
    // Rules that fail are no obstacle to convergence.
    ensures (maxIterations > 0 && aux <= old(g.triples) && (regime.None? || !regimeFirst)
             && Idle(rules, faults.rules(1), sources, old(g.triples))) ==> run.converged && g.triples == old(g.triples)
  {
    ghost var joint := Joint(rules, regime);
    JointParts(u, rules, regime);
    ghost var before := g.triples;
    ghost var c := Closure(u, joint, sources, before + aux);
    ClosureHolds(u, joint, sources, before + aux);
    JointClosed(rules, regime, sources, c);
    run, legs := AlternateWithin(u, rules, aux, sources, g, regime, regimeFirst, maxIterations, regimeIterations,
                                 faults, c);
    SubsetSize(g.triples, c);
    if run.converged {
      ClosedWithinIsClosure(u, joint, sources, before + aux, g.triples);
      JointClosed(rules, regime, sources, g.triples);
      ClosedInTwoParts(rules, run.Failed(), sources, g.triples);
      NoFailureNoneFailed(rules, faults, run);
    }
  }

  lemma NoFailureNoneFailed(rules: seq<Rule>, faults: JointFaults, run: Run)
    requires run.converged && FailuresAreTheRules(rules, faults.rules, run)
    ensures faults.NoRuleFails() ==> run.Failed() == {}
  {
  }

  // ── Converged, but not closed ─────────────────────────────────────────────

  const PREMISE := Triple(Iri("ex:a"), "ex:p", Resource(Iri("ex:b")))
  const CONCLUSION := Triple(Iri("ex:a"), "ex:q", Resource(Iri("ex:b")))
  const BOTH: set<Triple> := {PREMISE, CONCLUSION}
  const ONE_RULE: seq<Rule> := [FromPremise]

  /** The rule that draws CONCLUSION from PREMISE. */
  function FromPremise(view: set<Triple>): set<Triple> {
    if PREMISE in view then {CONCLUSION} else {}
  }

  lemma OneRuleFacts()
    ensures WellBehaved(BOTH, ONE_RULE) && !Closed(ONE_RULE, {PREMISE}, {})
    ensures Closure(BOTH, ONE_RULE, {PREMISE}, {}) == {CONCLUSION}
  {
    assert ONE_RULE[0] in ONE_RULE && CONCLUSION in FromPremise({PREMISE} + {});
    assert Closed(ONE_RULE, {PREMISE}, {CONCLUSION});
    ClosureIsLeast(BOTH, ONE_RULE, {PREMISE}, {}, {CONCLUSION});
    ClosureHolds(BOTH, ONE_RULE, {PREMISE}, {});
  }

  /** A run whose one rule fails, for having too many solutions, say: it reports
      convergence and no error, and the graph lacks what the rule derives. */
  method FailedRuleConverges() returns (run: Run, g: InferenceGraph)
    ensures run.converged && run.error.None? && run.Failed() == {0}
    ensures g.triples == {} && Closure(BOTH, ONE_RULE, {PREMISE}, {}) == {CONCLUSION}
  {
    g := new InferenceGraph();
    var none := Faults(i => false, (i, k) => false, (i, k) => false);
    var faults := JointFaults(false, n => none.(rule := (i, k) => true), n => none);
    OneRuleFacts();
    ghost var legs;
    run, legs := RunRulesJointly(BOTH, ONE_RULE, {}, {PREMISE}, g, None, false, 1000, 0, faults);
    OnlyRuleFailed(ONE_RULE, faults.rules, run);
  }

  lemma OnlyRuleFailed(rules: seq<Rule>, faults: nat -> Faults, run: Run)
    requires |rules| == 1 && run.converged && FailuresAreTheRules(rules, faults, run)
    requires run.last.Some? && run.last.value.iterations > 0 && faults(run.rounds).rule(1, 0)
    ensures run.Failed() == {0}
  {
    assert FailedIn(faults(run.rounds), run.last.value.iterations, 0);
  }

  /** A run without rules whose caller has not run the regime, though it says so: it
      reports convergence, and the graph lacks what the regime derives. */
  method UnsettledRegimeConverges() returns (run: Run, g: InferenceGraph)
    ensures run.converged && run.error.None?
    ensures g.triples == {} && Closure(BOTH, Joint([], Some(ONE_RULE)), {PREMISE}, {}) == {CONCLUSION}
  {
    g := new InferenceGraph();
    var none := Faults(i => false, (i, k) => false, (i, k) => false);
    OneRuleFacts();
    assert Joint([], Some(ONE_RULE)) == ONE_RULE;
    ghost var legs;
    run, legs := RunRulesJointly(BOTH, [], {}, {PREMISE}, g, Some(ONE_RULE), false, 1000, 1000,
                           JointFaults(false, n => none, n => none));
  }

  // ── Without the cap ───────────────────────────────────────────────────────

  /** One fault-free round: the rules to their fixed point, then the regime to its own. */
  ghost function Round(u: set<Triple>, rules: seq<Rule>, regime: seq<Rule>, sources: set<Triple>,
                       target: set<Triple>): set<Triple> {
    Closure(u, regime, sources, Closure(u, rules, sources, target))
  }

  ghost function Iterate(f: set<Triple> -> set<Triple>, target: set<Triple>, n: nat): set<Triple>
    decreases n
  {
    if n == 0 then target else Iterate(f, f(target), n - 1)
  }

  /** `n` fault-free rounds, without the cap. */
  ghost function Rounds(u: set<Triple>, rules: seq<Rule>, regime: seq<Rule>, sources: set<Triple>, target: set<Triple>,
                        n: nat): set<Triple> {
    Iterate(AsRound(u, rules, regime, sources), target, n)
  }

  ghost function AsRound(u: set<Triple>, rules: seq<Rule>, regime: seq<Rule>,
                         sources: set<Triple>): set<Triple> -> set<Triple> {
    t => Round(u, rules, regime, sources, t)
  }

  /** An operator that only grows its argument, within a finite bound, stands still after
      at most as many steps as the bound has elements to add. */
  lemma {:induction false} GrowthStops(f: set<Triple> -> set<Triple>, target: set<Triple>, bound: set<Triple>)
    returns (n: nat)
    requires target <= bound
    requires forall t {:trigger f(t)} | t <= bound :: t <= f(t) <= bound
    ensures n <= |bound - target|
    ensures target <= Iterate(f, target, n) <= bound
    ensures f(Iterate(f, target, n)) == Iterate(f, target, n)
    decreases |bound - target|
  {
    if f(target) == target {
      n := 0;
    } else {
      GrowthShrinksRest(bound, target, f(target));
      n := GrowthStops(f, f(target), bound);
      n := n + 1;
    }
  }

  /** A round stays within every set closed under both engines, and stands still only
      at a joint fixed point. */
  lemma RoundStaysWithin(u: set<Triple>, rules: seq<Rule>, regime: seq<Rule>, sources: set<Triple>, target: set<Triple>,
                         bound: set<Triple>)
    requires WellBehaved(u, rules) && WellBehaved(u, regime) && target <= bound <= u
    requires Closed(rules, sources, bound) && Closed(regime, sources, bound)
    ensures target <= Round(u, rules, regime, sources, target) <= bound
    ensures Round(u, rules, regime, sources, target) == target
            ==> Closed(rules, sources, target) && Closed(regime, sources, target)
  {
    var mid := Closure(u, rules, sources, target);
    ClosureHolds(u, rules, sources, target);
    ClosureIsLeast(u, rules, sources, target, bound);
    ClosureHolds(u, regime, sources, mid);
    ClosureIsLeast(u, regime, sources, mid, bound);
  }

  /** Without the cap the alternation ends in the joint closure, after at most one round
      per underived consequence: a round that changes anything leaves fewer of them. */
  lemma AlternationTerminates(u: set<Triple>, rules: seq<Rule>, regime: seq<Rule>, sources: set<Triple>,
                              target: set<Triple>)
    returns (n: nat)
    requires WellBehaved(u, Joint(rules, Some(regime))) && target <= u
    ensures n <= |Closure(u, Joint(rules, Some(regime)), sources, target) - target|
    ensures Rounds(u, rules, regime, sources, target, n) == Closure(u, Joint(rules, Some(regime)), sources, target)
  {
    var joint := Joint(rules, Some(regime));
    JointParts(u, rules, Some(regime));
    var c := Closure(u, joint, sources, target);
    ClosureHolds(u, joint, sources, target);
    JointClosed(rules, Some(regime), sources, c);
    forall t | t <= c
      ensures t <= Round(u, rules, regime, sources, t) <= c
    {
      RoundStaysWithin(u, rules, regime, sources, t, c);
    }
    n := GrowthStops(AsRound(u, rules, regime, sources), target, c);
    var last := Rounds(u, rules, regime, sources, target, n);
    RoundStaysWithin(u, rules, regime, sources, last, c);
    JointClosed(rules, Some(regime), sources, last);
    ClosedWithinIsClosure(u, joint, sources, target, last);
  }
}
