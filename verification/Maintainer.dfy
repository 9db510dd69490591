/** The program's own form of the maintenance: runs and the write hook as methods that
    update the store, each a step (or a chain of steps) of the machine in Maintenance. */
module Maintainer {
  import opened Rdf
  import opened FixedPoint
  import opened JointRun
  import opened Maintenance

  /** `states` lead from one to the next by `events`. */
  ghost predicate IsChain(cfg: Config, states: seq<State>, events: seq<Event>) {
    && |states| == |events| + 1
    && forall i | 0 <= i < |events| :: Step(cfg, states[i], events[i], states[i + 1])
  }

  lemma ChainExtends(cfg: Config, states: seq<State>, events: seq<Event>, e: Event, s: State)
    requires IsChain(cfg, states, events) && Step(cfg, states[|states| - 1], e, s)
    ensures IsChain(cfg, states + [s], events + [e])
  {
    forall i | 0 <= i < |events| + 1
      ensures Step(cfg, (states + [s])[i], (events + [e])[i], (states + [s])[i + 1])
    {
      if i < |events| {
        assert Step(cfg, states[i], events[i], states[i + 1]);
      }
    }
  }

  /** What goes wrong once a run's reasoner starts: in its own pass, reading the stored
      rules, joining these to the regime. */
  datatype WorkFaults = WorkFaults(reasoner: Faults, unreadable: bool, joint: JointFaults)

  /** What goes wrong in a run: looking the dataset up, clearing its graph, clearing the graph
      it would have without a regime, and the rest. */
  datatype RunFaults = RunFaults(lookup: bool, clear: bool, secondClear: bool, work: WorkFaults)

  /** What goes wrong in the hook: looking up the datasets that own a written graph, looking
      up single datasets without a regime, the runs. */
  datatype HookFaults = HookFaults(lookup: bool, unread: set<DatasetId>, runs: DatasetId -> RunFaults)
  {
    /** The datasets among `owners` that the hook fails to find. */
    function Missed(cfg: Config, owners: set<DatasetId>): set<DatasetId> {
      set id | id in owners && (lookup || (id in unread && id in cfg.datasets && cfg.datasets[id].regime.None?))
    }
  }

  /** What the write hook did about a dataset it found. */
  datatype Did = Skipped | Scheduled | Ran(extend: bool, outcome: Outcome)

  function EventFor(id: DatasetId, did: Did): Event {
    match did
    case Skipped => HookSkip(id)
    case Scheduled => HookSchedule(id)
    case Ran(_, outcome) => HookRun(id, outcome)
  }

  /** What the hook, started in `s`, does about `id`: schedule a background run, skip, or
      run, extending exactly when the write was additive and a run is on record. */
  ghost predicate Decided(cfg: Config, s: State, id: DatasetId, did: Did, faults: RunFaults)
    requires id in cfg.datasets
  {
    if cfg.datasets[id].dl then did.Scheduled?
    else if id in s.last && s.last[id] == s.hookGeneration then did.Skipped?
    else
      && did.Ran? && did.extend == s.Extends(id)
      && (did.outcome.Early? <==> faults.lookup || (!did.extend && faults.clear))
  }

  /** What holds of the graph of `id` in `now`, after what the hook, started in `s`, did
      about it: a run without error, on a graph that was vouched for if it extended it,
      left exactly the consequences unless a failed rule has something to add, and a skip
      left them if it rests on a run without error or failure. */
  ghost predicate Settled(cfg: Config, s: State, id: DatasetId, did: Did, now: State)
    requires id in cfg.datasets
  {
    match did
    case Skipped => id !in s.inexact ==> now.Target(id) == Consequences(cfg, now, id)
    case Scheduled => true
    case Ran(extend, outcome) =>
      outcome.Finished? && !outcome.rulesError && !(extend && id in s.stale + s.shrunk) ==>
        (now.Target(id) == Consequences(cfg, now, id) <==> FailuresDoNotMatter(cfg, now, id, outcome.failed))
  }

  /** Nothing happened to `id` between `s` and `now`. */
  ghost predicate Untouched(s: State, id: DatasetId, now: State) {
    && now.Target(id) == s.Target(id)
    && (id in now.last <==> id in s.last) && (id in now.last ==> now.last[id] == s.last[id])
    && (id in now.stale <==> id in s.stale) && (id in now.shrunk <==> id in s.shrunk)
    && (id in now.inexact <==> id in s.inexact)
  }

  ghost predicate AllSettled(cfg: Config, s: State, report: map<DatasetId, Did>, faults: DatasetId -> RunFaults,
                             now: State) {
    forall id | id in report ::
      id in cfg.datasets && Decided(cfg, s, id, report[id], faults(id)) && Settled(cfg, s, id, report[id], now)
  }

  ghost predicate AllHappened(report: map<DatasetId, Did>, events: seq<Event>) {
    forall id | id in report :: EventFor(id, report[id]) in events
  }

  /** What the hook has to deal with: a dataset that owns a written graph and has a regime or
      stores a rule now, unless looking for it fails. */
  ghost predicate IsConcerned(cfg: Config, written: set<GraphName>, graphs: Graphs, faults: HookFaults, id: DatasetId) {
    && id in cfg.datasets
    && (exists g :: g in written && g in cfg.datasets[id].owned)
    && (cfg.datasets[id].regime.Some?
        || !cfg.datasets[id].read(set g, t | g in cfg.datasets[id].ruleGraphs && g in graphs && t in graphs[g] ::
                                  t).NoRules?)
    && !faults.lookup
    && !(id in faults.unread && cfg.datasets[id].regime.None?)
  }

  lemma ConcernedAreFound(cfg: Config, written: set<GraphName>, graphs: Graphs, faults: HookFaults)
    ensures var owners := cfg.Owners(written, graphs);
            forall id :: id in owners - faults.Missed(cfg, owners) <==> IsConcerned(cfg, written, graphs, faults, id)
  {
    forall id | id in cfg.datasets
      ensures id in cfg.Touched(written) <==> exists g :: g in written && g in cfg.datasets[id].owned
    {
      assert forall g :: g in cfg.datasets[id].owned * written <==> g in written && g in cfg.datasets[id].owned;
    }
    forall id | id in cfg.datasets
      ensures Together(graphs, cfg.datasets[id].ruleGraphs)
              == set g, t | g in cfg.datasets[id].ruleGraphs && g in graphs && t in graphs[g] :: t
    {
      TogetherIs(graphs, cfg.datasets[id].ruleGraphs);
    }
  }

  lemma RunSettles(cfg: Config, s: State, id: DatasetId, extend: bool, outcome: Outcome, s': State)
    requires cfg.Valid() && id in cfg.datasets && DatasetInv(cfg, s, id)
    requires RunStep(cfg, s.(due := s.due - {id}), id, extend, outcome, s')
    ensures Settled(cfg, s, id, Ran(extend, outcome), s')
  {
    var from := s.(due := s.due - {id});
    assert Consequences(cfg, from, id) == Consequences(cfg, s, id);
    ConsequencesHold(cfg, s, id);
    if !outcome.Early? && !(extend && id in s.stale + s.shrunk) {
      RunReachesConsequences(cfg, from, id, extend, outcome, s');
    }
  }

  lemma OneMoreSettled(cfg: Config, start: State, report: map<DatasetId, Did>,
                       faults: DatasetId -> RunFaults, s: State, id: DatasetId, did: Did, now: State)
    requires AllSettled(cfg, start, report, faults, s) && id in cfg.datasets && id !in report && now.graphs == s.graphs
    requires Untouched(start, id, s) && forall other | other != id :: Untouched(s, other, now)
    requires s.hookGeneration == start.hookGeneration && s.additive == start.additive
    requires Decided(cfg, s, id, did, faults(id)) && Settled(cfg, s, id, did, now)
    ensures AllSettled(cfg, start, report[id := did], faults, now)
  {
    forall other | other in report
      ensures Settled(cfg, start, other, report[other], now)
    {
      assert Untouched(s, other, now);
      assert Consequences(cfg, now, other) == Consequences(cfg, s, other);
    }
  }

  lemma OneMoreHappened(report: map<DatasetId, Did>, events: seq<Event>, id: DatasetId, did: Did)
    requires AllHappened(report, events)
    ensures AllHappened(report[id := did], events + [EventFor(id, did)])
  {
  }

  ghost predicate AllUntouched(s: State, ids: set<DatasetId>, now: State) {
    forall id | id in ids :: Untouched(s, id, now)
  }

  /** A visit of `id` touches no other dataset, and nothing the hook goes by. */
  ghost predicate VisitedOnly(s: State, id: DatasetId, now: State) {
    && now.due == s.due - {id} && now.graphs == s.graphs
    && now.hookGeneration == s.hookGeneration && now.additive == s.additive
    && forall other | other != id :: Untouched(s, other, now)
  }

  /** The hook, started in `start`, has still `ids` to visit, and `unfound` besides. */
  ghost predicate Underway(cfg: Config, start: State, found: set<DatasetId>, ids: set<DatasetId>,
                           unfound: set<DatasetId>,
                           report: map<DatasetId, Did>, faults: DatasetId -> RunFaults,
                           states: seq<State>, events: seq<Event>, now: State)
  {
    && now.due == ids + unfound && ids !! unfound && ids <= found && report.Keys == found - ids
    && now.graphs == start.graphs && now.hookGeneration == start.hookGeneration && now.additive == start.additive
    && AllUntouched(start, ids, now)
    && AllSettled(cfg, start, report, faults, now) && AllHappened(report, events)
    && IsChain(cfg, states, events) && states[0] == start && states[|events|] == now
  }

  lemma UnderwayOn(cfg: Config, start: State, found: set<DatasetId>, ids: set<DatasetId>, unfound: set<DatasetId>,
                   report: map<DatasetId, Did>, faults: DatasetId -> RunFaults,
                   states: seq<State>, events: seq<Event>, s: State,
                   id: DatasetId, did: Did, now: State)
    requires Underway(cfg, start, found, ids, unfound, report, faults, states, events, s)
    requires id in ids && id in cfg.datasets && Step(cfg, s, EventFor(id, did), now) && VisitedOnly(s, id, now)
    requires Decided(cfg, s, id, did, faults(id)) && Settled(cfg, s, id, did, now)
    ensures Underway(cfg, start, found, ids - {id}, unfound, report[id := did], faults,
                     states + [now], events + [EventFor(id, did)], now)
  {
    assert Untouched(start, id, s);
    OneMoreSettled(cfg, start, report, faults, s, id, did, now);
    OneMoreHappened(report, events, id, did);
    ChainExtends(cfg, states, events, EventFor(id, did), now);
    StillUntouched(start, ids, id, s, now);
  }

  lemma MissedOn(cfg: Config, start: State, found: set<DatasetId>, unfound: set<DatasetId>,
                 report: map<DatasetId, Did>, faults: DatasetId -> RunFaults,
                 states: seq<State>, events: seq<Event>, s: State, id: DatasetId, now: State)
    requires Underway(cfg, start, found, {}, unfound, report, faults, states, events, s)
    requires id in unfound && Step(cfg, s, HookMiss(id), now)
    ensures Underway(cfg, start, found, {}, unfound - {id}, report, faults, states + [now], events + [HookMiss(id)],
                     now)
  {
    ChainExtends(cfg, states, events, HookMiss(id), now);
    forall other | other in report
      ensures Settled(cfg, start, other, report[other], now)
    {
      assert Consequences(cfg, now, other) == Consequences(cfg, s, other) && now.Target(other) == s.Target(other);
    }
  }

  lemma StillUntouched(start: State, ids: set<DatasetId>, id: DatasetId, s: State, now: State)
    requires AllUntouched(start, ids, s) && VisitedOnly(s, id, now)
    ensures AllUntouched(start, ids - {id}, now)
  {
    forall other | other in ids - {id}
      ensures Untouched(start, other, now)
    {
      assert Untouched(start, other, s) && Untouched(s, other, now);
    }
  }

  lemma SkipSettles(cfg: Config, s: State, id: DatasetId, did: Did, faults: RunFaults, s': State)
    requires id in cfg.datasets && DatasetInv(cfg, s', id) && !did.Ran? && Decided(cfg, s, id, did, faults)
    requires DatasetInv(cfg, s, id) && id in s.due && s' == s.(due := s.due - {id})
    ensures Settled(cfg, s, id, did, s')
  {
    assert Consequences(cfg, s', id) == Consequences(cfg, s, id);
  }

  lemma RunIsVisit(cfg: Config, s: State, id: DatasetId, extend: bool, outcome: Outcome, s': State)
    requires cfg.Valid() && Inv(cfg, s) && id in s.due && extend == s.Extends(id)
    requires RunStep(cfg, s.(due := s.due - {id}), id, extend, outcome, s')
    requires !cfg.datasets[id].dl && !(id in s.last && s.last[id] == s.hookGeneration)
    ensures Step(cfg, s, HookRun(id, outcome), s') && Inv(cfg, s')
    ensures Settled(cfg, s, id, Ran(extend, outcome), s') && VisitedOnly(s, id, s')
  {
    assert DatasetInv(cfg, s, id);
    StepKeepsInv(cfg, s, HookRun(id, outcome), s');
    RunSettles(cfg, s, id, extend, outcome, s');
  }

  /** After a write in `before` and its hook, a dataset reported on was scheduled exactly if
      its regime runs in the background, and else run, extending exactly when the write
      was additive and a run was on record. If the run ended without error, the graph holds
      exactly the consequences of what is stored now, unless a failed rule has something
      to add; for an extension, if the graph was not stale and the rules only grew. */
  ghost predicate MaintainedAt(cfg: Config, before: State, isAdditive: bool, id: DatasetId, did: Did, faults: RunFaults,
                               now: State)
    requires id in cfg.datasets
  {
    var d := cfg.datasets[id];
    match did
    case Scheduled => d.dl
    case Skipped => false
    case Ran(extend, outcome) =>
      && !d.dl && extend == (isAdditive && id in before.last)
          && (outcome.Early? <==> faults.lookup || (!extend && faults.clear))
      && (outcome.Finished? && !outcome.rulesError
          && (extend ==> id !in before.stale && d.RulesOnlyGrow(before.graphs, now.graphs)) ==>
            (now.Target(id) == Consequences(cfg, now, id) <==> FailuresDoNotMatter(cfg, now, id, outcome.failed)))
  }

  ghost predicate Maintained(cfg: Config, before: State, isAdditive: bool, report: map<DatasetId, Did>,
                             faults: DatasetId -> RunFaults, now: State)
  {
    forall id | id in report && id in cfg.datasets ::
      MaintainedAt(cfg, before, isAdditive, id, report[id], faults(id), now)
  }

  lemma SettledIsMaintained(cfg: Config, before: State, written: set<GraphName>, isAdditive: bool, start: State,
                            report: map<DatasetId, Did>, faults: DatasetId -> RunFaults, now: State)
    requires Inv(cfg, before) && before.due == {} && Step(cfg, before, Write(written, isAdditive), start)
    requires AllSettled(cfg, start, report, faults, now) && now.graphs == start.graphs
    ensures Maintained(cfg, before, isAdditive, report, faults, now)
  {
    forall id | id in report
      ensures MaintainedAt(cfg, before, isAdditive, id, report[id], faults(id), now)
    {
      assert Decided(cfg, start, id, report[id], faults(id)) && Settled(cfg, start, id, report[id], now);
      assert DatasetInv(cfg, before, id);
    }
  }

  class Server {
    const cfg: Config
    /** The most iterations one pass of the stored rules, and of the regime, may take. */
    const ruleIterations: nat
    const regimeIterations: nat
    var graphs: Graphs
    var targets: map<DatasetId, set<Triple>>
    var last: map<DatasetId, nat>
    var generation: nat
    /** The history components of the state; the others are this object's fields. */
    ghost var history: State

    ghost function View(): State
      reads this
    {
      history.(graphs := graphs, targets := targets, last := last, generation := generation)
    }

    ghost predicate Valid()
      reads this
    {
      cfg.Valid() && Inv(cfg, View())
    }

    constructor (cfg: Config, graphs: Graphs, targets: map<DatasetId, set<Triple>>,
                 ruleIterations: nat, regimeIterations: nat)
      requires cfg.Valid()
      requires forall id | id in targets :: targets[id] <= cfg.universe
      ensures Valid() && this.cfg == cfg && Init(cfg, View())
    {
      this.cfg := cfg;
      this.ruleIterations := ruleIterations;
      this.regimeIterations := regimeIterations;
      this.graphs := graphs;
      this.targets := targets;
      this.last := map[];
      this.generation := 0;
      this.history := State(graphs, targets, map[], 0, {}, 0, false, {}, cfg.datasets.Keys, {}, {});
    }

    /** Re-materialise the regime of `id`, on top of the graph (`extend`) or from scratch,
        then join its stored rules to it. A run whose rules stop short, or fail, is still
        recorded. */
    method RunForDatasetWith(id: DatasetId, extend: bool, faults: RunFaults) returns (outcome: Outcome)
      requires cfg.Valid() && id in cfg.datasets && View().Target(id) <= cfg.universe
      requires cfg.datasets[id].regime.Some?
      modifies this
      ensures RunStep(cfg, old(View()), id, extend, outcome, View())
      ensures outcome.Early? <==> faults.lookup || (!extend && faults.clear)
      ensures last == if outcome.Finished? then old(last)[id := generation] else old(last)
      ensures !faults.lookup && (extend || !(faults.clear || faults.secondClear)) ==>
                Succeeds(old(View()), id, extend, faults.work, outcome)
      ensures OwnsUp(old(View()), id, faults.work, outcome)
    {
      ghost var s := View();
      if faults.lookup || (!extend && faults.clear) {
        history := Recorded(s, id, extend, Early, targets, generation);
        return Early;
      }
      if !extend {
        targets := targets[id := {}];
        generation := generation + 2;
        // The graph of a dataset that has rules only is cleared next.
        if faults.secondClear {
          EmptyIsWithin(s, id);
          Record(id, Failed, {}, s, extend);
          return Failed;
        }
      }
      outcome := FinishRun(id, extend, faults.work, s);
    }

    /** The run past the clear: what its reasoner and its stored rules leave is recorded. */
    method FinishRun(id: DatasetId, extend: bool, faults: WorkFaults, ghost s: State) returns (outcome: Outcome)
      requires cfg.Valid() && id in cfg.datasets && s.Target(id) <= cfg.universe
      requires graphs == s.graphs && last == s.last && s.generation <= generation
      requires !extend ==> s.generation < generation
      requires targets == if extend then s.targets else s.targets[id := {}]
      modifies this
      ensures RunStep(cfg, s, id, extend, outcome, View())
      ensures last == if outcome.Finished? then s.last[id := generation] else s.last
      ensures !outcome.Early? && Succeeds(s, id, extend, faults, outcome) && OwnsUp(s, id, faults, outcome)
    {
      var base, result := if id in targets then targets[id] else {}, {};
      if cfg.datasets[id].regime.Some? {
        outcome, result := Materialise(id, base, s, extend, faults);
      } else {
        outcome, result := MaterialiseRules(id, base, s, extend, faults);
      }
      Record(id, outcome, result, s, extend);
    }

    lemma EmptyIsWithin(s: State, id: DatasetId)
      requires id in cfg.datasets
      ensures {} <= RunBound(cfg, s, id, false)
    {
    }

    /** Store what a run left in the graph of `id` and, when it finished, that the dataset
        is in sync now. `s` is the state before the run. */
    method Record(id: DatasetId, outcome: Outcome, result: set<Triple>, ghost s: State, ghost extend: bool)
      requires id in cfg.datasets
      requires graphs == s.graphs && last == s.last && s.generation <= generation
      requires !extend ==> s.generation < generation
      requires targets == if extend then s.targets else s.targets[id := {}]
      requires !outcome.Early? && (outcome.Failed? ==> cfg.datasets[id].regime.Some?)
      requires RunLeft(s, id, extend, outcome, result)
      modifies this
      ensures RunStep(cfg, s, id, extend, outcome, View())
      ensures last == if outcome.Finished? then s.last[id := generation] else s.last
    {
      targets := targets[id := result];
      var writes :| 0 <= writes;
      generation := generation + 2 * writes;
      if outcome.Finished? {
        last := last[id := generation];
      }
      history := Recorded(s, id, extend, outcome, targets, generation);
    }

    /** What a run that got past the clear may leave. */
    ghost predicate RunLeft(s: State, id: DatasetId, extend: bool, outcome: Outcome, result: set<Triple>)
      requires id in cfg.datasets
    {
      var d := cfg.datasets[id];
      && Base(s, id, extend) <= result <= RunBound(cfg, s, id, extend)
      && (outcome.Finished? && !outcome.rulesError ==>
            (result == RunBound(cfg, s, id, extend)
             <==> FailedAddNothing(d.StoredIn(s.graphs).Rules(), outcome.failed, d.SourceTriples(s.graphs), result)))
    }

    /** A run of `id` that nothing hinders but rules that fail, with stored rules that can be
        read, enough iterations, and fewer consequences to draw than two for each round,
        ends without error, and without a failed rule if none fails. */
    ghost predicate Succeeds(s: State, id: DatasetId, extend: bool, faults: WorkFaults, outcome: Outcome)
      requires id in cfg.datasets
    {
      var bound, base := RunBound(cfg, s, id, extend), Base(s, id, extend);
      (cfg.datasets[id].regime.Some? ==> faults.reasoner.Unhindered() && faults.reasoner.NoRuleFails())
      && !faults.unreadable && !cfg.datasets[id].StoredIn(s.graphs).Refused?
      && Unhindered(faults.joint, ruleIterations, regimeIterations, bound, base)
      && |bound| - |base| < 2 * MAX_JOINT_ROUNDS ==>
        outcome.Finished? && !outcome.rulesError && (faults.joint.NoRuleFails() ==> outcome.failed == {})
    }

    /** A finished run reports an error if the stored rules are refused or cannot be read, and
        neither an error nor a failed rule if there are none. */
    predicate OwnsUp(s: State, id: DatasetId, faults: WorkFaults, outcome: Outcome)
      reads this
      requires id in cfg.datasets
    {
      var stored := cfg.datasets[id].StoredIn(s.graphs);
      outcome.Finished? ==>
        && (stored.Refused? || (stored.Readable? && faults.unreadable) ==> outcome.rulesError)
        && (stored.NoRules? ==> outcome == Finished(false, {}))
    }

    /** The reasoner over the sources of `id` on top of `base`, then its stored rules. */
    method Materialise(id: DatasetId, base: set<Triple>, ghost s: State, ghost extend: bool, faults: WorkFaults)
      returns (outcome: Outcome, result: set<Triple>)
      requires cfg.Valid() && id in cfg.datasets && cfg.datasets[id].regime.Some?
      requires s.graphs == graphs && s.Target(id) <= cfg.universe && base == Base(s, id, extend)
      ensures !outcome.Early? && RunLeft(s, id, extend, outcome, result)
      ensures Succeeds(s, id, extend, faults, outcome) && OwnsUp(s, id, faults, outcome)
    {
      var d := cfg.datasets[id];
      var stored, sources := d.StoredIn(graphs), d.SourceTriples(graphs);
      ghost var bound := RunBound(cfg, s, id, extend);
      BoundHolds(s, id, extend);
      JointParts(cfg.universe, stored.Rules(), d.regime);
      JointClosed(stored.Rules(), d.regime, sources, bound);
      var g := new InferenceGraph();
      g.triples := base;
      var added := RegimePass(cfg.universe, d.regime.value, sources, g, regimeIterations, faults.reasoner, bound);
      if added.None? {
        return Failed, g.triples;
      }
      var error, failed := JoinRules(stored, sources, g, d.regime, faults, bound);
      outcome, result := Finished(error, failed), g.triples;
      if !error {
        JoinedIsLeft(id, base, failed, result);
      }
    }

    /** What a run without error leaves is the closure exactly when the failed rules have
        nothing to add. */
    lemma JoinedIsLeft(id: DatasetId, base: set<Triple>, failed: set<nat>, result: set<Triple>)
      requires cfg.Valid() && id in cfg.datasets
      requires var d := cfg.datasets[id];
               var stored, sources := d.StoredIn(graphs).Rules(), d.SourceTriples(graphs);
               && base + d.Aux(graphs) <= cfg.universe
               && base + d.Aux(graphs) <= result
                  <= Closure(cfg.universe, d.Rules(graphs), sources, base + d.Aux(graphs))
               && OthersAddNothing(stored, failed, sources, result)
               && (d.regime.Some? && FailedAddNothing(stored, failed, sources, result) ==>
                     Closed(d.regime.value, sources, result))
      ensures var d := cfg.datasets[id];
              var stored, sources := d.StoredIn(graphs).Rules(), d.SourceTriples(graphs);
              result == Closure(cfg.universe, d.Rules(graphs), sources, base + d.Aux(graphs))
              <==> FailedAddNothing(stored, failed, sources, result)
    {
      var d := cfg.datasets[id];
      var stored, sources := d.StoredIn(graphs).Rules(), d.SourceTriples(graphs);
      RulesBehave(cfg, id, graphs);
      JointClosed(stored, d.regime, sources, result);
      ClosedInTwoParts(stored, failed, sources, result);
      ClosedWithinIsClosure(cfg.universe, d.Rules(graphs), sources, base + d.Aux(graphs), result);
    }

    lemma BoundHolds(s: State, id: DatasetId, extend: bool)
      requires cfg.Valid() && id in cfg.datasets && s.Target(id) <= cfg.universe
      ensures var d := cfg.datasets[id];
              var bound := RunBound(cfg, s, id, extend);
              && WellBehaved(cfg.universe, d.Rules(s.graphs))
                  && Base(s, id, extend) + d.Aux(s.graphs) <= bound <= cfg.universe
              && Closed(d.Rules(s.graphs), d.SourceTriples(s.graphs), bound)
    {
      var d := cfg.datasets[id];
      RulesBehave(cfg, id, s.graphs);
      ClosureHolds(cfg.universe, d.Rules(s.graphs), d.SourceTriples(s.graphs), Base(s, id, extend) + d.Aux(s.graphs));
    }

    /** Join the stored rules to the regime, which has just run: whether they met an error,
        and which failed. */
    method JoinRules(stored: Stored, sources: set<Triple>, g: InferenceGraph, regime: Option<seq<Rule>>,
                     faults: WorkFaults, ghost bound: set<Triple>)
      returns (error: bool, failed: set<nat>)
      requires WellBehaved(cfg.universe, stored.Rules()) && (regime.Some? ==> WellBehaved(cfg.universe, regime.value))
      requires g.triples + stored.Aux() <= bound <= cfg.universe && Closed(stored.Rules(), sources, bound)
      requires regime.Some? ==> Closed(regime.value, sources, bound) && Closed(regime.value, sources, g.triples)
      modifies g
      ensures old(g.triples) <= g.triples <= bound
      ensures stored.Refused? || (stored.Readable? && faults.unreadable) ==> error && g.triples == old(g.triples)
      ensures stored.NoRules? ==> !error && failed == {} && g.triples == old(g.triples)
      ensures !error ==> stored.Aux() <= g.triples && OthersAddNothing(stored.Rules(), failed, sources, g.triples)
      ensures !error && regime.Some? && FailedAddNothing(stored.Rules(), failed, sources, g.triples) ==>
                Closed(regime.value, sources, g.triples)
      ensures !stored.Refused? && !faults.unreadable && |bound| - |old(g.triples)| < 2 * MAX_JOINT_ROUNDS
              && Unhindered(faults.joint, ruleIterations, regimeIterations, bound, old(g.triples)) ==>
                !error && (faults.joint.NoRuleFails() ==> failed == {})
    {
      error, failed := false, {};
      match stored {
        case NoRules =>
        case Refused =>
          error := true;
        case Readable(rules, aux) =>
          if faults.unreadable {
            return true, {};
          }
          ghost var legs;
          var run;
          run, legs := AlternateWithin(cfg.universe, rules, aux, sources, g, regime, false, ruleIterations,
                                     regimeIterations, faults.joint, bound);
          SubsetSize(g.triples, bound);
          if run.converged {
            NoFailureNoneFailed(rules, faults.joint, run);
          }
          error, failed := run.error.Some?, run.Failed();
      }
    }

    /** A run of `id` where only stored rules derive anything. It goes on record however
        these fare, unless it ended before the clear. */
    method RunRulesForDataset(id: DatasetId, extend: bool, faults: RunFaults) returns (outcome: Outcome)
      requires cfg.Valid() && id in cfg.datasets && View().Target(id) <= cfg.universe
      requires cfg.datasets[id].regime.None?
      modifies this
      ensures RunStep(cfg, old(View()), id, extend, outcome, View())
      ensures outcome.Early? <==> faults.lookup || (!extend && faults.clear)
      ensures last == if outcome.Finished? then old(last)[id := generation] else old(last)
      ensures !faults.lookup && (extend || !(faults.clear || faults.secondClear)) ==>
                Succeeds(old(View()), id, extend, faults.work, outcome)
      ensures OwnsUp(old(View()), id, faults.work, outcome)
    {
      ghost var s := View();
      if faults.lookup || (!extend && faults.clear) {
        history := Recorded(s, id, extend, Early, targets, generation);
        return Early;
      }
      if !extend {
        targets := targets[id := {}];
        generation := generation + 2;
      }
      outcome := FinishRun(id, extend, faults.work, s);
    }

    method MaterialiseRules(id: DatasetId, base: set<Triple>, ghost s: State, ghost extend: bool, faults: WorkFaults)
      returns (outcome: Outcome, result: set<Triple>)
      requires cfg.Valid() && id in cfg.datasets && cfg.datasets[id].regime.None?
      requires s.graphs == graphs && s.Target(id) <= cfg.universe && base == Base(s, id, extend)
      ensures outcome.Finished? && RunLeft(s, id, extend, outcome, result)
      ensures Succeeds(s, id, extend, faults, outcome) && OwnsUp(s, id, faults, outcome)
    {
      var d := cfg.datasets[id];
      var stored, sources := d.StoredIn(graphs), d.SourceTriples(graphs);
      ghost var bound := RunBound(cfg, s, id, extend);
      BoundHolds(s, id, extend);
      var g := new InferenceGraph();
      g.triples := base;
      var error, failed := JoinRules(stored, sources, g, None, faults, bound);
      outcome, result := Finished(error, failed), g.triples;
      if !error {
        JoinedIsLeft(id, base, failed, result);
      }
    }

    /** A data write: `content` replaces the graphs it names. */
    method WriteData(content: Graphs, isAdditive: bool)
      requires Valid() && View().due == {}
      requires isAdditive ==> forall g | g in content :: Content(graphs, g) <= content[g]
      modifies this
      ensures Step(cfg, old(View()), Write(content.Keys, isAdditive), View()) && Valid()
      ensures graphs == old(graphs) + content
    {
      ghost var s := View();
      graphs := graphs + content;
      generation := generation + 2;
      history := Written(cfg, s, content.Keys, isAdditive, graphs, generation);
      StepKeepsInv(cfg, s, Write(content.Keys, isAdditive), View());
    }

    // ── The write hook ──────────────────────────────────────────────────────

    /** The hook at one dataset. */
    method Visit(id: DatasetId, hookGeneration: nat, isAdditive: bool, faults: RunFaults) returns (did: Did)
      requires Valid() && id in View().due
      requires View().hookGeneration == hookGeneration && View().additive == isAdditive
      modifies this
      ensures Valid() && Step(cfg, old(View()), EventFor(id, did), View())
      ensures Decided(cfg, old(View()), id, did, faults) && Settled(cfg, old(View()), id, did, View())
      ensures VisitedOnly(old(View()), id, View())
    {
      if cfg.datasets[id].dl || (id in last && last[id] == hookGeneration) {
        did := if cfg.datasets[id].dl then Scheduled else Skipped;
        NoRun(id, did, faults);
      } else {
        did := VisitAndRun(id, isAdditive && id in last, faults);
      }
    }

    ghost method NoRun(id: DatasetId, did: Did, faults: RunFaults)
      requires Valid() && id in View().due && Decided(cfg, View(), id, did, faults) && !did.Ran?
      modifies this`history
      ensures Valid() && Step(cfg, old(View()), EventFor(id, did), View())
      ensures Settled(cfg, old(View()), id, did, View()) && VisitedOnly(old(View()), id, View())
    {
      var s := View();
      history := s.(due := s.due - {id});
      StepKeepsInv(cfg, s, EventFor(id, did), View());
      SkipSettles(cfg, s, id, did, faults, View());
    }

    method VisitAndRun(id: DatasetId, extend: bool, faults: RunFaults) returns (did: Did)
      requires Valid() && id in View().due && extend == View().Extends(id) && !cfg.datasets[id].dl
      requires !(id in last && last[id] == View().hookGeneration)
      modifies this
      ensures did.Ran? && did.extend == extend && (did.outcome.Early? <==> faults.lookup || (!extend && faults.clear))
      ensures Valid() && Step(cfg, old(View()), EventFor(id, did), View())
      ensures Settled(cfg, old(View()), id, did, View()) && VisitedOnly(old(View()), id, View())
    {
      ghost var s := View();
      assert DatasetInv(cfg, s, id);
      history := s.(due := s.due - {id});
      var outcome := RunEither(id, extend, faults);
      did := Ran(extend, outcome);
      RunIsVisit(cfg, s, id, extend, outcome, View());
    }

    method RunEither(id: DatasetId, extend: bool, faults: RunFaults) returns (outcome: Outcome)
      requires cfg.Valid() && id in cfg.datasets && View().Target(id) <= cfg.universe
      modifies this
      ensures RunStep(cfg, old(View()), id, extend, outcome, View())
      ensures outcome.Early? <==> faults.lookup || (!extend && faults.clear)
      ensures !faults.lookup && !faults.clear && !faults.secondClear ==>
                Succeeds(old(View()), id, extend, faults.work, outcome)
    {
      if cfg.datasets[id].regime.None? {
        outcome := RunRulesForDataset(id, extend, faults);
      } else {
        outcome := RunForDatasetWith(id, extend, faults);
      }
    }

    /** The hook at the datasets it found. */
    method VisitAll(found: set<DatasetId>, isAdditive: bool, faults: DatasetId -> RunFaults,
                    ghost unfound: set<DatasetId>)
      returns (report: map<DatasetId, Did>, ghost states: seq<State>, ghost events: seq<Event>)
      requires Valid() && found !! unfound && View().due == found + unfound
      requires View().hookGeneration == generation && View().additive == isAdditive
      modifies this
      ensures Valid() && Underway(cfg, old(View()), found, {}, unfound, report, faults, states, events, View())
    {
      ghost var start := View();
      states, events, report := [start], [], map[];
      var targetIds, hookGeneration := found, generation;
      while targetIds != {}
        invariant Valid() && hookGeneration == start.hookGeneration && isAdditive == start.additive
        invariant Underway(cfg, start, found, targetIds, unfound, report, faults, states, events, View())
        decreases targetIds
      {
        var id :| id in targetIds;
        ghost var s := View();
        var did := Visit(id, hookGeneration, isAdditive, faults(id));
        UnderwayOn(cfg, start, found, targetIds, unfound, report, faults, states, events, s, id, did, View());
        states, events := states + [View()], events + [EventFor(id, did)];
        report := report[id := did];
        targetIds := targetIds - {id};
      }
    }

    /** The hook fails to find these: only the history notes them. */
    ghost method MissAll(found: set<DatasetId>, unfound: set<DatasetId>, report: map<DatasetId, Did>,
                         faults: DatasetId -> RunFaults, start: State, before: seq<State>, made: seq<Event>)
      returns (states: seq<State>, events: seq<Event>)
      requires Valid() && Underway(cfg, start, found, {}, unfound, report, faults, before, made, View())
      modifies this`history
      ensures Valid() && Underway(cfg, start, found, {}, {}, report, faults, states, events, View())
      decreases unfound
    {
      states, events := before, made;
      if unfound != {} {
        var id :| id in unfound;
        var s := View();
        history := s.(due := s.due - {id}, shrunk := s.shrunk - {id}, stale := s.stale + s.shrunk * {id});
        StepKeepsInv(cfg, s, HookMiss(id), View());
        MissedOn(cfg, start, found, unfound, report, faults, before, made, s, id, View());
        states, events := MissAll(found, unfound - {id}, report, faults, start, before + [View()],
                                  made + [HookMiss(id)]);
      }
    }

    /** The write hook: for every dataset that owns a written graph it schedules, skips,
        extends or rebuilds, unless it fails to look the dataset up. */
    method AfterWriteKind(written: set<GraphName>, isAdditive: bool, faults: HookFaults)
      returns (report: map<DatasetId, Did>, ghost states: seq<State>, ghost events: seq<Event>)
      requires Valid() && View().due == cfg.Owners(written, graphs)
      requires View().hookGeneration == generation && View().additive == isAdditive
      modifies this
      // Every dataset that owns a written graph, and reasons, was dealt with unless missed ...
      ensures forall id :: id in report <==> IsConcerned(cfg, written, graphs, faults, id)
      // ... as decided by what was on record, and is left as promised.
      ensures AllSettled(cfg, old(View()), report, faults.runs, View()) && AllHappened(report, events)
      ensures IsChain(cfg, states, events) && states[0] == old(View()) && states[|events|] == View()
      ensures Valid() && View().due == {} && graphs == old(graphs)
    {
      ghost var start := View();
      var owners := cfg.Owners(written, graphs);
      var missed := faults.Missed(cfg, owners);
      assert owners == (owners - missed) + missed;
      report, states, events := VisitAll(owners - missed, isAdditive, faults.runs, missed);
      states, events := MissAll(owners - missed, missed, report, faults.runs, start, states, events);
      ConcernedAreFound(cfg, written, graphs, faults);
    }

    /** A data write and its hook. */
    method WriteAndMaintain(content: Graphs, isAdditive: bool, faults: HookFaults) returns (report: map<DatasetId, Did>)
      requires Valid() && View().due == {}
      requires isAdditive ==> forall g | g in content :: Content(graphs, g) <= content[g]
      modifies this
      ensures Valid() && View().due == {} && graphs == old(graphs) + content
      ensures forall id :: id in report <==> IsConcerned(cfg, content.Keys, graphs, faults, id)
      ensures Maintained(cfg, old(View()), isAdditive, report, faults.runs, View())
    {
      ghost var before := View();
      WriteData(content, isAdditive);
      ghost var start := View();
      ghost var states, events;
      report, states, events := AfterWriteKind(content.Keys, isAdditive, faults);
      SettledIsMaintained(cfg, before, content.Keys, isAdditive, start, report, faults.runs, View());
    }
  }
}
