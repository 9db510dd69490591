/** Keeping each dataset's entailment graph in step with its reasoning sources: after
    every write its run is skipped, extends the graph, or rebuilds it. */
module Maintenance {
  import opened Rdf
  import opened FixedPoint
  import opened JointRun

  type DatasetId = string
  type GraphName = string

  /** The named graphs of the store; an absent one is empty. */
  type Graphs = map<GraphName, set<Triple>>

  function Content(graphs: Graphs, g: GraphName): set<Triple> {
    if g in graphs then graphs[g] else {}
  }

  /** What a dataset's rule graphs hold: no SWRL rule, rules the strict reader or the
      compiler refuses, or rules and the axioms of their class-expression atoms. */
  datatype Stored = NoRules | Refused | Readable(rules: seq<Rule>, aux: set<Triple>)
  {
    function Rules(): seq<Rule> {
      if Readable? then rules else []
    }

    function Aux(): set<Triple> {
      if Readable? then aux else {}
    }
  }

  function Together(graphs: Graphs, names: set<GraphName>): set<Triple> {
    set g, t | g in names && t in Content(graphs, g) :: t
  }

  lemma TogetherIs(graphs: Graphs, names: set<GraphName>)
    ensures Together(graphs, names) == set g, t | g in names && g in graphs && t in graphs[g] :: t
  {
    forall t | t in Together(graphs, names)
      ensures exists g :: g in names && g in graphs && t in graphs[g]
    {
      var g :| g in names && t in Content(graphs, g);
    }
    forall g, t | g in names && g in graphs && t in graphs[g]
      ensures t in Together(graphs, names)
    {
      assert t in Content(graphs, g);
    }
  }

  /** A dataset: the graphs it owns, those of them its reasoner reads, its regime if it is
      in `materialize` mode (`dl`: the one that runs in the background), the graphs its
      SWRL rules are stored in, and how rules are read from the triples of these. */
  datatype Dataset = Dataset(
    owned: set<GraphName>,
    sources: set<GraphName>,
    regime: Option<seq<Rule>>,
    dl: bool,
    ruleGraphs: set<GraphName>,
    read: set<Triple> -> Stored)
  {
    function StoredIn(graphs: Graphs): Stored {
      read(Together(graphs, ruleGraphs))
    }

    function Rules(graphs: Graphs): seq<Rule> {
      Joint(StoredIn(graphs).Rules(), regime)
    }

    function Aux(graphs: Graphs): set<Triple> {
      StoredIn(graphs).Aux()
    }

    /** What the reasoner reads besides the target graph. */
    function SourceTriples(graphs: Graphs): set<Triple> {
      Together(graphs, sources)
    }

    /** Whether the write hook considers the dataset at all. */
    predicate Reasons(graphs: Graphs) {
      regime.Some? || !StoredIn(graphs).NoRules?
    }

    /** Whatever the rules of `graphs` derive, those of `graphs'` derive too. */
    ghost predicate RulesOnlyGrow(graphs: Graphs, graphs': Graphs) {
      Covered(Rules(graphs), Rules(graphs')) && Aux(graphs) <= Aux(graphs')
    }
  }

  datatype Config = Config(universe: set<Triple>, datasets: map<DatasetId, Dataset>) {
    ghost predicate Valid() {
      forall id | id in datasets ::
        var d := datasets[id];
        && d.sources + d.ruleGraphs <= d.owned && (d.dl ==> d.regime.Some?)
        && forall triples {:trigger d.read(triples)} ::
             WellBehaved(universe, Joint(d.read(triples).Rules(), d.regime)) && d.read(triples).Aux() <= universe
    }

    /** The datasets that own one of the graphs `written`. */
    function Touched(written: set<GraphName>): set<DatasetId> {
      set id | id in datasets && datasets[id].owned * written != {}
    }

    /** Those of them the write hook finds. */
    function Owners(written: set<GraphName>, graphs: Graphs): set<DatasetId> {
      set id | id in Touched(written) && datasets[id].Reasons(graphs)
    }

    /** The datasets touched that may have lost a consequence: the write was not additive,
        or their rules did not only grow. */
    ghost function Shrinking(written: set<GraphName>, isAdditive: bool, graphs: Graphs,
                             graphs': Graphs): set<DatasetId> {
      set id | id in Touched(written) && !(isAdditive && datasets[id].RulesOnlyGrow(graphs, graphs'))
    }
  }

  /** How one run of a dataset ended. */
  datatype Outcome =
    | Early   // before the graph was cleared: nothing changed
    | Failed  // after that
    // Recorded as in sync, though the stored rules may have stopped short (`rulesError`)
    // and, without an error, some may have failed in their last pass (`failed`).
    | Finished(rulesError: bool, failed: set<nat>)

  /** The store and the process's bookkeeping. The last seven components are not in the
      program's memory across calls: `due` are the datasets the write hook under way has
      still to visit, `hookGeneration` and `additive` its local variables, and the rest is
      history: the datasets that may have lost a consequence since their last run and
      have one coming (`shrunk`), those whose graph nothing vouches for (`stale`), those
      whose graph is known to be what a rebuild would give (`exact`), and those whose
      last recorded run met an error or a failure of the stored rules or extended a graph
      that nothing vouched for (`inexact`). */
  datatype State = State(
    graphs: Graphs,
    targets: map<DatasetId, set<Triple>>,
    last: map<DatasetId, nat>,
    generation: nat,
    due: set<DatasetId>,
    hookGeneration: nat,
    additive: bool,
    shrunk: set<DatasetId>,
    stale: set<DatasetId>,
    exact: set<DatasetId>,
    inexact: set<DatasetId>)
  {
    function Target(id: DatasetId): set<Triple> {
      if id in targets then targets[id] else {}
    }

    /** Whether the hook, at `id`, extends the graph. */
    predicate Extends(id: DatasetId) {
      additive && id in last
    }
  }

  /** What a from-scratch run would materialise for `id`. */
  ghost function Consequences(cfg: Config, s: State, id: DatasetId): set<Triple>
    requires id in cfg.datasets
  {
    var d := cfg.datasets[id];
    Closure(cfg.universe, d.Rules(s.graphs), d.SourceTriples(s.graphs), d.Aux(s.graphs))
  }

  ghost predicate Sound(cfg: Config, s: State, id: DatasetId)
    requires id in cfg.datasets
  {
    s.Target(id) <= Consequences(cfg, s, id)
  }

  /** Where a run starts: the graph as it is, or cleared. */
  function Base(s: State, id: DatasetId, extend: bool): set<Triple> {
    if extend then s.Target(id) else {}
  }

  /** A run without error or failed rule that did not build on a graph nothing vouches for. */
  predicate Reliable(s: State, id: DatasetId, extend: bool, outcome: Outcome) {
    outcome == Finished(false, {}) && !(extend && id in s.stale + s.shrunk)
  }

  /** The state after a run of `id` that left `targets` and `generation`: a finished run is
      recorded as in sync, whatever its stored rules reported. */
  function Recorded(s: State, id: DatasetId, extend: bool, outcome: Outcome,
                    targets: map<DatasetId, set<Triple>>, generation: nat): State
  {
    var reliable := Reliable(s, id, extend, outcome);
    s.(targets := targets,
       generation := generation,
       last := if outcome.Finished? then s.last[id := generation] else s.last,
       shrunk := s.shrunk - {id},
       stale := if outcome.Early? || extend then s.stale + s.shrunk * {id} else s.stale - {id},
       exact := if outcome.Early? then s.exact else if reliable then s.exact + {id} else s.exact - {id},
       inexact := if !outcome.Finished? then s.inexact else if reliable then s.inexact - {id} else s.inexact + {id})
  }

  /** The most a run of `id` can leave: the closure of what it starts from. */
  ghost function RunBound(cfg: Config, s: State, id: DatasetId, extend: bool): set<Triple>
    requires id in cfg.datasets
  {
    var d := cfg.datasets[id];
    Closure(cfg.universe, d.Rules(s.graphs), d.SourceTriples(s.graphs), Base(s, id, extend) + d.Aux(s.graphs))
  }

  /** The stored rules that failed in a run have nothing to add to what it left. */
  ghost predicate FailuresDoNotMatter(cfg: Config, s: State, id: DatasetId, failed: set<nat>)
    requires id in cfg.datasets
  {
    var d := cfg.datasets[id];
    FailedAddNothing(d.StoredIn(s.graphs).Rules(), failed, d.SourceTriples(s.graphs), s.Target(id))
  }

  /** One run of `id`, as `run_for_dataset_with` and `run_rules_for_dataset` make it. */
  ghost predicate RunStep(cfg: Config, s: State, id: DatasetId, extend: bool, outcome: Outcome, s': State)
    requires id in cfg.datasets
  {
    && s' == Recorded(s, id, extend, outcome, s'.targets, s'.generation)
    && s.generation <= s'.generation
    && (forall other | other != id :: s'.Target(other) == s.Target(other))
    && (outcome.Failed? ==> cfg.datasets[id].regime.Some?)
    && (outcome.Early? ==> s'.Target(id) == s.Target(id))
    && (!outcome.Early? ==> Base(s, id, extend) <= s'.Target(id) <= RunBound(cfg, s, id, extend))
    && (!outcome.Early? && !extend ==> s.generation < s'.generation)
    && (outcome.Finished? && !outcome.rulesError ==>
          (s'.Target(id) == RunBound(cfg, s, id, extend) <==> FailuresDoNotMatter(cfg, s', id, outcome.failed)))
  }

  datatype Event =
    | Write(written: set<GraphName>, isAdditive: bool)  // a data write; its hook is due
    | OtherWrite                                        // a write to graphs no dataset owns
    | Hook(hooked: set<GraphName>, isAdditive: bool)    // the hook again, for graphs unchanged since
    | HookMiss(id: DatasetId)                           // the hook fails to look the dataset up
    | HookSkip(id: DatasetId)
    | HookSchedule(id: DatasetId)                       // a background run is queued
    | HookRun(id: DatasetId, outcome: Outcome)
    | Rerun(id: DatasetId, outcome: Outcome)            // a background run or a change of setting: a rebuild

  /** The state after a write left `graphs` and `generation`. */
  ghost function Written(cfg: Config, s: State, written: set<GraphName>, isAdditive: bool,
                         graphs: Graphs, generation: nat): State
  {
    var shrinking, found := cfg.Shrinking(written, isAdditive, s.graphs, graphs), cfg.Owners(written, graphs);
    s.(graphs := graphs,
       generation := generation,
       due := found,
       hookGeneration := generation,
       additive := isAdditive,
       shrunk := s.shrunk + shrinking * found,
       stale := s.stale + (shrinking - found),
       exact := s.exact - cfg.Touched(written))
  }

  ghost predicate Step(cfg: Config, s: State, e: Event, s': State) {
    match e
    case Write(written, additive) =>
      && s.due == {}
      && (forall g | g !in written :: Content(s'.graphs, g) == Content(s.graphs, g))
      && (additive ==> forall g | g in written :: Content(s.graphs, g) <= Content(s'.graphs, g))
      && s.generation < s'.generation
      && s' == Written(cfg, s, written, additive, s'.graphs, s'.generation)
    case OtherWrite =>
      && s.generation < s'.generation
      && (forall id, g | id in cfg.datasets && g in cfg.datasets[id].owned ::
          Content(s'.graphs, g) == Content(s.graphs, g))
      && s' == s.(graphs := s'.graphs, generation := s'.generation)
    case Hook(hooked, additive) =>
      && s.due == {}
      && s' == s.(due := cfg.Owners(hooked, s.graphs), hookGeneration := s.generation, additive := additive)
    case HookMiss(id) =>
      && id in s.due
      && s' == s.(due := s.due - {id}, shrunk := s.shrunk - {id}, stale := s.stale + s.shrunk * {id})
    case HookSkip(id) =>
      && id in s.due && id in cfg.datasets && !cfg.datasets[id].dl
      && id in s.last && s.last[id] == s.hookGeneration
      && s' == s.(due := s.due - {id})
    case HookSchedule(id) =>
      && id in s.due && id in cfg.datasets && cfg.datasets[id].dl
      && s' == s.(due := s.due - {id})
    case HookRun(id, outcome) =>
      && id in s.due && id in cfg.datasets && !cfg.datasets[id].dl
      && !(id in s.last && s.last[id] == s.hookGeneration)
      && RunStep(cfg, s.(due := s.due - {id}), id, s.Extends(id), outcome, s')
    case Rerun(id, outcome) =>
      && id in cfg.datasets && (s.due == {} || cfg.datasets[id].dl)
      && RunStep(cfg, s, id, false, outcome, s')
  }

  /** A process start: no run is on record, and nothing vouches for what is in the graphs. */
  ghost predicate Init(cfg: Config, s: State) {
    && s.last == map[] && s.due == {} && s.shrunk == {} && s.exact == {}
    && s.stale == cfg.datasets.Keys
    && forall id | id in cfg.datasets :: s.Target(id) <= cfg.universe
  }

  ghost predicate IsRun(cfg: Config, states: seq<State>, events: seq<Event>) {
    && |states| == |events| + 1
    && Init(cfg, states[0])
    && forall i {:trigger events[i]} | 0 <= i < |events| :: Step(cfg, states[i], events[i], states[i + 1])
  }

  /** What every step keeps. */
  ghost predicate Inv(cfg: Config, s: State) {
    && s.due <= cfg.datasets.Keys
    && (s.due != {} ==> s.hookGeneration <= s.generation)
    && forall id | id in cfg.datasets :: DatasetInv(cfg, s, id)
  }

  ghost predicate DatasetInv(cfg: Config, s: State, id: DatasetId)
    requires id in cfg.datasets
  {
    var dl := cfg.datasets[id].dl;
    && s.Target(id) <= cfg.universe
    && (id in s.shrunk ==> id in s.due || dl)
    && (id in s.last ==> s.last[id] <= s.generation && (id in s.due && !dl ==> s.last[id] <= s.hookGeneration))
    // A graph that something vouches for holds only consequences of what is stored now,
    // except while a run is still to come after a write that may have removed some.
    && (id !in s.stale && id !in s.shrunk ==> Sound(cfg, s, id))
    && (id in s.exact ==> s.Target(id) == Consequences(cfg, s, id))
    // A skip finds the graph as its last recorded run left it.
    && (!dl && id in s.last && (s.last[id] == s.generation || (id in s.due && s.last[id] == s.hookGeneration)) ==>
          id !in s.shrunk && (id in s.exact || id in s.inexact))
  }

  // ── One run ───────────────────────────────────────────────────────────────

  lemma RulesBehave(cfg: Config, id: DatasetId, graphs: Graphs)
    requires cfg.Valid() && id in cfg.datasets
    ensures WellBehaved(cfg.universe, cfg.datasets[id].Rules(graphs)) && cfg.datasets[id].Aux(graphs) <= cfg.universe
  {
    var d := cfg.datasets[id];
    assert d.StoredIn(graphs) == d.read(Together(graphs, d.ruleGraphs));
  }

  lemma ConsequencesHold(cfg: Config, s: State, id: DatasetId)
    requires cfg.Valid() && id in cfg.datasets
    ensures cfg.datasets[id].Aux(s.graphs) <= Consequences(cfg, s, id) <= cfg.universe
    ensures Closed(cfg.datasets[id].Rules(s.graphs), cfg.datasets[id].SourceTriples(s.graphs), Consequences(cfg, s, id))
  {
    var d := cfg.datasets[id];
    RulesBehave(cfg, id, s.graphs);
    ClosureHolds(cfg.universe, d.Rules(s.graphs), d.SourceTriples(s.graphs), d.Aux(s.graphs));
  }

  /** A run that starts from consequences is bounded by them: extending equals rebuilding. */
  lemma BoundIsConsequences(cfg: Config, s: State, id: DatasetId, extend: bool)
    requires cfg.Valid() && id in cfg.datasets && Base(s, id, extend) <= Consequences(cfg, s, id)
    ensures RunBound(cfg, s, id, extend) == Consequences(cfg, s, id)
  {
    var d := cfg.datasets[id];
    ConsequencesHold(cfg, s, id);
    RulesBehave(cfg, id, s.graphs);
    ExtendingEqualsRebuilding(cfg.universe, d.Rules(s.graphs), d.SourceTriples(s.graphs), d.Aux(s.graphs),
                              Base(s, id, extend) + d.Aux(s.graphs));
  }

  lemma RunKeepsGraphs(cfg: Config, s: State, id: DatasetId, extend: bool, outcome: Outcome, s': State)
    requires id in cfg.datasets && RunStep(cfg, s, id, extend, outcome, s')
    ensures s'.graphs == s.graphs
    ensures forall other | other in cfg.datasets :: Consequences(cfg, s', other) == Consequences(cfg, s, other)
  {
  }

  /** A run that starts from consequences ends within them. Without an error it ends with
      all of them exactly when the rules that failed have nothing to add. */
  lemma RunReachesConsequences(cfg: Config, s: State, id: DatasetId, extend: bool, outcome: Outcome, s': State)
    requires cfg.Valid() && id in cfg.datasets && RunStep(cfg, s, id, extend, outcome, s') && !outcome.Early?
    requires Base(s, id, extend) <= Consequences(cfg, s, id)
    ensures Sound(cfg, s', id)
    ensures outcome.Finished? && !outcome.rulesError ==>
              (s'.Target(id) == Consequences(cfg, s', id) <==> FailuresDoNotMatter(cfg, s', id, outcome.failed))
  {
    RunKeepsGraphs(cfg, s, id, extend, outcome, s');
    BoundIsConsequences(cfg, s, id, extend);
  }

  lemma FailuresDoNotMatterToAll(cfg: Config, s: State, id: DatasetId, failed: set<nat>)
    requires cfg.Valid() && id in cfg.datasets && s.Target(id) == Consequences(cfg, s, id)
    ensures FailuresDoNotMatter(cfg, s, id, failed)
  {
    var d := cfg.datasets[id];
    ConsequencesHold(cfg, s, id);
    JointClosed(d.StoredIn(s.graphs).Rules(), d.regime, d.SourceTriples(s.graphs), s.Target(id));
    ClosedInTwoParts(d.StoredIn(s.graphs).Rules(), failed, d.SourceTriples(s.graphs), s.Target(id));
  }

  /** The exact condition for one run without error, over the rules and the sources as
      they are: it ends with exactly the consequences if and only if it started from
      consequences and the rules that failed have nothing to add. */
  lemma RunIsExactExactlyWhen(cfg: Config, s: State, id: DatasetId, extend: bool, failed: set<nat>, s': State)
    requires cfg.Valid() && id in cfg.datasets && RunStep(cfg, s, id, extend, Finished(false, failed), s')
    ensures s'.Target(id) == Consequences(cfg, s', id)
            <==> Base(s, id, extend) <= Consequences(cfg, s, id) && FailuresDoNotMatter(cfg, s', id, failed)
  {
    RunKeepsGraphs(cfg, s, id, extend, Finished(false, failed), s');
    if Base(s, id, extend) <= Consequences(cfg, s, id) {
      BoundIsConsequences(cfg, s, id, extend);
    }
    if s'.Target(id) == Consequences(cfg, s', id) {
      FailuresDoNotMatterToAll(cfg, s', id, failed);
    }
  }

  /** A rebuild that gets past the clear leaves no consequence of removed data, whatever
      happened before and whether or not it succeeds. */
  lemma RebuildForgets(cfg: Config, s: State, id: DatasetId, outcome: Outcome, s': State)
    requires cfg.Valid() && id in cfg.datasets && RunStep(cfg, s, id, false, outcome, s') && !outcome.Early?
    ensures Sound(cfg, s', id)
    ensures outcome.Finished? && !outcome.rulesError ==>
              (s'.Target(id) == Consequences(cfg, s', id) <==> FailuresDoNotMatter(cfg, s', id, outcome.failed))
  {
    RunReachesConsequences(cfg, s, id, false, outcome, s');
  }

  // ── Every step keeps the invariant ────────────────────────────────────────

  lemma RunStaysInUniverse(cfg: Config, s: State, id: DatasetId, extend: bool, outcome: Outcome, s': State)
    requires cfg.Valid() && id in cfg.datasets && RunStep(cfg, s, id, extend, outcome, s')
    requires s.Target(id) <= cfg.universe
    ensures s'.Target(id) <= cfg.universe
  {
    var d := cfg.datasets[id];
    if !outcome.Early? {
      RulesBehave(cfg, id, s.graphs);
      ClosureHolds(cfg.universe, d.Rules(s.graphs), d.SourceTriples(s.graphs), Base(s, id, extend) + d.Aux(s.graphs));
    }
  }

  /** What a run of `id` does to the invariant of the others. */
  lemma RunKeepsOthers(cfg: Config, s: State, id: DatasetId, extend: bool, outcome: Outcome, s': State,
                       other: DatasetId)
    requires id in cfg.datasets && RunStep(cfg, s, id, extend, outcome, s')
    requires other in cfg.datasets && other != id && DatasetInv(cfg, s, other)
    requires s.due != {} ==> s.hookGeneration <= s.generation
    ensures DatasetInv(cfg, s', other)
  {
    RunKeepsGraphs(cfg, s, id, extend, outcome, s');
  }

  /** A run of `id` keeps its own: `s` is the state before the hook took it off the list. */
  lemma RunKeepsOwn(cfg: Config, s: State, id: DatasetId, extend: bool, outcome: Outcome, s': State)
    requires cfg.Valid() && id in cfg.datasets && DatasetInv(cfg, s, id)
    requires s.due != {} ==> s.hookGeneration <= s.generation
    requires RunStep(cfg, s.(due := if cfg.datasets[id].dl then s.due else s.due - {id}), id, extend, outcome, s')
    requires extend ==> id in s.last && id in s.due && s.last[id] != s.hookGeneration
    requires !cfg.datasets[id].dl ==> if id in s.due then !(id in s.last && s.last[id] == s.hookGeneration) else !extend
    ensures DatasetInv(cfg, s', id)
  {
    var from := s.(due := if cfg.datasets[id].dl then s.due else s.due - {id});
    RunStaysInUniverse(cfg, from, id, extend, outcome, s');
    RunKeepsGraphs(cfg, from, id, extend, outcome, s');
    assert Consequences(cfg, from, id) == Consequences(cfg, s, id);
    ConsequencesHold(cfg, s, id);
    if !outcome.Early? && Base(s, id, extend) <= Consequences(cfg, s, id) {
      RunReachesConsequences(cfg, from, id, extend, outcome, s');
    }
  }

  lemma RunKeepsDataset(cfg: Config, s: State, e: Event, s': State, other: DatasetId)
    requires cfg.Valid() && other in cfg.datasets && DatasetInv(cfg, s, other)
    requires s.due != {} ==> s.hookGeneration <= s.generation
    requires (e.HookRun? || e.Rerun?) && Step(cfg, s, e, s')
    ensures DatasetInv(cfg, s', other)
  {
    var extend := e.HookRun? && s.Extends(e.id);
    var from := if e.HookRun? then s.(due := s.due - {e.id}) else s;
    if other != e.id {
      assert DatasetInv(cfg, from, other);
      RunKeepsOthers(cfg, from, e.id, extend, e.outcome, s', other);
    } else {
      assert from == s.(due := if cfg.datasets[e.id].dl then s.due else s.due - {e.id});
      RunKeepsOwn(cfg, s, e.id, extend, e.outcome, s');
    }
  }

  lemma RunKeepsInv(cfg: Config, s: State, e: Event, s': State)
    requires cfg.Valid() && Inv(cfg, s) && (e.HookRun? || e.Rerun?) && Step(cfg, s, e, s')
    ensures Inv(cfg, s')
  {
    forall other | other in cfg.datasets
      ensures DatasetInv(cfg, s', other)
    {
      RunKeepsDataset(cfg, s, e, s', other);
    }
  }

  lemma TogetherGrows(graphs: Graphs, graphs': Graphs, names: set<GraphName>)
    requires forall g | g in names :: Content(graphs, g) <= Content(graphs', g)
    ensures Together(graphs, names) <= Together(graphs', names)
  {
  }

  lemma TogetherStays(graphs: Graphs, graphs': Graphs, names: set<GraphName>)
    requires forall g | g in names :: Content(graphs, g) == Content(graphs', g)
    ensures Together(graphs, names) == Together(graphs', names)
  {
  }

  /** More sources and rules that only grow keep a sound graph sound. */
  lemma GrowthKeepsSound(cfg: Config, s: State, s': State, id: DatasetId)
    requires cfg.Valid() && id in cfg.datasets && Sound(cfg, s, id) && s'.Target(id) == s.Target(id)
    requires forall g :: Content(s.graphs, g) <= Content(s'.graphs, g)
    requires cfg.datasets[id].RulesOnlyGrow(s.graphs, s'.graphs)
    ensures Sound(cfg, s', id)
  {
    var d := cfg.datasets[id];
    RulesBehave(cfg, id, s.graphs);
    RulesBehave(cfg, id, s'.graphs);
    TogetherGrows(s.graphs, s'.graphs, d.sources);
    ClosureMonotone(cfg.universe, d.Rules(s.graphs), d.SourceTriples(s.graphs), d.Aux(s.graphs),
                    d.Rules(s'.graphs), d.SourceTriples(s'.graphs), d.Aux(s'.graphs));
  }

  /** What a dataset owns decides all about it. */
  lemma SameOwnedGraphs(cfg: Config, s: State, s': State, id: DatasetId)
    requires cfg.Valid() && id in cfg.datasets && s'.Target(id) == s.Target(id)
    requires forall g | g in cfg.datasets[id].owned :: Content(s'.graphs, g) == Content(s.graphs, g)
    ensures Consequences(cfg, s', id) == Consequences(cfg, s, id)
    ensures Sound(cfg, s', id) <==> Sound(cfg, s, id)
  {
    var d := cfg.datasets[id];
    assert d.sources <= d.owned && d.ruleGraphs <= d.owned;
    TogetherStays(s.graphs, s'.graphs, d.sources);
    TogetherStays(s.graphs, s'.graphs, d.ruleGraphs);
  }

  lemma WriteKeepsDataset(cfg: Config, s: State, e: Event, s': State, id: DatasetId)
    requires cfg.Valid() && id in cfg.datasets && DatasetInv(cfg, s, id) && e.Write? && Step(cfg, s, e, s')
    ensures DatasetInv(cfg, s', id)
  {
    if id !in cfg.Touched(e.written) {
      assert cfg.datasets[id].owned * e.written == {};
      assert forall g | g in cfg.datasets[id].owned :: g !in cfg.datasets[id].owned * e.written;
      SameOwnedGraphs(cfg, s, s', id);
    } else if id !in cfg.Shrinking(e.written, e.isAdditive, s.graphs, s'.graphs) && Sound(cfg, s, id) {
      GrowthKeepsSound(cfg, s, s', id);
    }
  }

  lemma WriteKeepsInv(cfg: Config, s: State, e: Event, s': State)
    requires cfg.Valid() && Inv(cfg, s) && e.Write? && Step(cfg, s, e, s')
    ensures Inv(cfg, s')
  {
    forall id | id in cfg.datasets
      ensures DatasetInv(cfg, s', id)
    {
      WriteKeepsDataset(cfg, s, e, s', id);
    }
  }

  lemma OtherStepsKeepDataset(cfg: Config, s: State, e: Event, s': State, id: DatasetId)
    requires cfg.Valid() && id in cfg.datasets && DatasetInv(cfg, s, id)
    requires s.due != {} ==> s.hookGeneration <= s.generation
    requires !e.Write? && !e.HookRun? && !e.Rerun? && Step(cfg, s, e, s')
    ensures DatasetInv(cfg, s', id)
  {
    SameOwnedGraphs(cfg, s, s', id);
  }

  lemma StepKeepsInv(cfg: Config, s: State, e: Event, s': State)
    requires cfg.Valid() && Inv(cfg, s) && Step(cfg, s, e, s')
    ensures Inv(cfg, s')
  {
    match e {
      case Write(_, _) => WriteKeepsInv(cfg, s, e, s');
      case HookRun(_, _) => RunKeepsInv(cfg, s, e, s');
      case Rerun(_, _) => RunKeepsInv(cfg, s, e, s');
      case _ =>
        forall id | id in cfg.datasets
          ensures DatasetInv(cfg, s', id)
        {
          OtherStepsKeepDataset(cfg, s, e, s', id);
        }
    }
  }

  lemma {:induction false} InvHolds(cfg: Config, states: seq<State>, events: seq<Event>, i: nat)
    requires cfg.Valid() && IsRun(cfg, states, events) && i < |states|
    ensures Inv(cfg, states[i])
  {
    if i > 0 {
      InvHolds(cfg, states, events, i - 1);
      StepKeepsInv(cfg, states[i - 1], events[i - 1], states[i]);
    }
  }

  // ── The results over whole runs ───────────────────────────────────────────

  /** A step that leaves consequences of removed data or rules behind in `id`: the hook
      fails to find a dataset that may have lost some, its rebuild never gets to the
      clear, or its graph is extended though an additive write took something from its
      rules; or a write leaves a dataset without a regime no rule at all, so that no hook
      considers it any more. */
  ghost predicate LeavesStale(cfg: Config, s: State, e: Event, s': State, id: DatasetId)
    requires id in cfg.datasets
  {
    match e
    case Write(written, additive) =>
      var d := cfg.datasets[id];
      && (exists g :: g in written && g in d.owned) && !(additive && d.RulesOnlyGrow(s.graphs, s'.graphs))
      && d.regime.None? && d.StoredIn(s'.graphs).NoRules?
    case HookMiss(missed) => missed == id && id in s.shrunk
    case HookRun(ran, outcome) => ran == id && id in s.shrunk && (outcome.Early? || s.Extends(id))
    case Rerun(ran, outcome) => ran == id && id in s.shrunk && outcome.Early?
    case _ => false
  }

  ghost predicate NeverLeftStale(cfg: Config, states: seq<State>, events: seq<Event>, i: nat, id: DatasetId)
    requires id in cfg.datasets && i <= |events| < |states|
  {
    forall k | 0 <= k < i :: !LeavesStale(cfg, states[k], events[k], states[k + 1], id)
  }

  /** Only such steps put a dataset that has a recorded run among the stale ones. */
  lemma {:induction false} RecordedGraphsAreVouchedFor(cfg: Config, states: seq<State>, events: seq<Event>, i: nat,
                                                       id: DatasetId)
    requires cfg.Valid() && IsRun(cfg, states, events) && i < |states| && id in cfg.datasets
    requires NeverLeftStale(cfg, states, events, i, id) && id in states[i].last
    ensures id !in states[i].stale
  {
    var s, e := states[i - 1], events[i - 1];
    assert Step(cfg, s, e, states[i]) && !LeavesStale(cfg, s, e, states[i], id);
    if id in s.last {
      RecordedGraphsAreVouchedFor(cfg, states, events, i - 1, id);
    }
  }

  /** Over every run without such a step, a recorded graph holds nothing but consequences
      of the sources and rules as they are (unless its rebuild is still to come):
      consequences of what was removed never linger. */
  lemma NothingLingers(cfg: Config, states: seq<State>, events: seq<Event>, i: nat, id: DatasetId)
    requires cfg.Valid() && IsRun(cfg, states, events) && i < |states| && id in cfg.datasets
    requires NeverLeftStale(cfg, states, events, i, id) && id in states[i].last && id !in states[i].shrunk
    ensures Sound(cfg, states[i], id)
  {
    InvHolds(cfg, states, events, i);
    RecordedGraphsAreVouchedFor(cfg, states, events, i, id);
    assert DatasetInv(cfg, states[i], id);
  }

  /** Over every run without such a step, a run of the dataset that ends without error,
      whether it extended or rebuilt the graph, leaves exactly the consequences of the
      sources and rules as they are, if and only if the rules that failed in it have
      nothing to add. */
  lemma RunsLeaveExactlyTheConsequences(cfg: Config, states: seq<State>, events: seq<Event>, i: nat, id: DatasetId,
                                        failed: set<nat>)
    requires cfg.Valid() && IsRun(cfg, states, events) && i < |events| && id in cfg.datasets
    requires NeverLeftStale(cfg, states, events, i + 1, id)
    requires events[i] == HookRun(id, Finished(false, failed)) || events[i] == Rerun(id, Finished(false, failed))
    ensures states[i + 1].Target(id) == Consequences(cfg, states[i + 1], id)
            <==> FailuresDoNotMatter(cfg, states[i + 1], id, failed)
  {
    var s, e, s' := states[i], events[i], states[i + 1];
    assert Step(cfg, s, e, s') && !LeavesStale(cfg, s, e, s', id);
    InvHolds(cfg, states, events, i);
    assert DatasetInv(cfg, s, id);
    var extend := e.HookRun? && s.Extends(id);
    var from := if e.HookRun? then s.(due := s.due - {id}) else s;
    if id in s.last {
      RecordedGraphsAreVouchedFor(cfg, states, events, i, id);
    }
    assert Consequences(cfg, from, id) == Consequences(cfg, s, id);
    ConsequencesHold(cfg, s, id);
    RunReachesConsequences(cfg, from, id, extend, Finished(false, failed), s');
  }

  /** A skip finds exactly the consequences, if the recorded run it rests on met no error
      and no failure of the stored rules (and extended no stale graph). */
  lemma SkipsRestOnReliableRuns(cfg: Config, states: seq<State>, events: seq<Event>, i: nat, id: DatasetId)
    requires cfg.Valid() && IsRun(cfg, states, events) && i < |events| && id in cfg.datasets
    requires events[i] == HookSkip(id) && id !in states[i].inexact
    ensures states[i + 1].Target(id) == Consequences(cfg, states[i + 1], id)
  {
    assert Step(cfg, states[i], events[i], states[i + 1]);
    InvHolds(cfg, states, events, i);
    InvHolds(cfg, states, events, i + 1);
    assert DatasetInv(cfg, states[i], id) && DatasetInv(cfg, states[i + 1], id);
  }

  /** The graph of `id` and all it depends on are as the hook would take them to be since its
      last recorded run: a skip may rest on this. */
  predicate InSync(s: State, id: DatasetId) {
    id in s.last && (s.last[id] == s.generation || (id in s.due && s.last[id] == s.hookGeneration))
  }

  /** Where `e` starts a run of `id` from: the hook takes the dataset off its list first. */
  function StartOf(s: State, e: Event, id: DatasetId): State {
    if e.HookRun? then s.(due := s.due - {id}) else s
  }

  function ExtendsAt(s: State, e: Event, id: DatasetId): bool {
    e.HookRun? && s.Extends(id)
  }

  /** `e` is a run of `id` that finishes. */
  predicate Finishes(e: Event, id: DatasetId) {
    (e.HookRun? || e.Rerun?) && e.id == id && e.outcome.Finished?
  }

  lemma RunKeepsSync(cfg: Config, s: State, e: Event, s': State, id: DatasetId)
    requires id in cfg.datasets && !cfg.datasets[id].dl && DatasetInv(cfg, s, id)
    requires s.due != {} ==> s.hookGeneration <= s.generation
    requires (e.HookRun? || e.Rerun?) && Step(cfg, s, e, s') && !Finishes(e, id) && InSync(s', id)
    ensures InSync(s, id) && s'.Target(id) == s.Target(id) && s'.graphs == s.graphs
  {
  }

  /** Another step than a run of `id` that finishes puts nothing on record for `id`, and if
      it leaves the dataset in sync, it was so before. */
  lemma StepKeepsSync(cfg: Config, s: State, e: Event, s': State, id: DatasetId)
    requires cfg.Valid() && Inv(cfg, s) && Step(cfg, s, e, s') && id in cfg.datasets && !cfg.datasets[id].dl
    requires id in s'.last && !Finishes(e, id)
    ensures id in s.last
    ensures InSync(s', id) ==> InSync(s, id) && SameFor(cfg, s, s', id)
  {
    assert DatasetInv(cfg, s, id);
    if InSync(s', id) {
      if e.HookRun? || e.Rerun? {
        RunKeepsSync(cfg, s, e, s', id);
      } else if !e.Write? {
        SameOwnedGraphs(cfg, s, s', id);
      }
    }
  }

  lemma OneStep(cfg: Config, states: seq<State>, events: seq<Event>, i: nat)
    requires cfg.Valid() && IsRun(cfg, states, events) && i < |events|
    ensures Step(cfg, states[i], events[i], states[i + 1]) && Inv(cfg, states[i])
  {
    InvHolds(cfg, states, events, i);
  }

  lemma RunsBegin(cfg: Config, states: seq<State>, events: seq<Event>, id: DatasetId)
    requires IsRun(cfg, states, events)
    ensures |states| == |events| + 1 && id !in states[0].last
  {
  }

  /** The graph of `id` is the same in both, and so is what it depends on. */
  ghost predicate SameFor(cfg: Config, s: State, s': State, id: DatasetId)
    requires id in cfg.datasets
  {
    s'.Target(id) == s.Target(id) && Consequences(cfg, s', id) == Consequences(cfg, s, id)
  }

  /** A dataset with a recorded run has had one; while it is in sync, nothing has happened
      to its graph, nor to what the graph depends on. */
  lemma {:induction false} RecordedRun(cfg: Config, states: seq<State>, events: seq<Event>, i: nat, id: DatasetId)
    returns (k: nat)
    requires cfg.Valid() && IsRun(cfg, states, events) && i < |states| && id in cfg.datasets
    requires id in states[i].last && !cfg.datasets[id].dl
    ensures k < i && Finishes(events[k], id)
    ensures InSync(states[i], id) ==> SameFor(cfg, states[k + 1], states[i], id)
  {
    RunsBegin(cfg, states, events, id);
    k := i - 1;
    if !Finishes(events[k], id) {
      OneStep(cfg, states, events, k);
      StepKeepsSync(cfg, states[k], events[k], states[i], id);
      k := RecordedRun(cfg, states, events, i - 1, id);
    }
  }

  /** What a skip rests on: the graph is as a run left it that finished before, over the same
      sources and rules. If that run met no error, the skip finds exactly the consequences
      if and only if the run had started from consequences and the rules that failed in it
      have nothing to add. */
  lemma SkipIsExactExactlyWhen(cfg: Config, states: seq<State>, events: seq<Event>, i: nat, id: DatasetId)
    returns (k: nat)
    requires cfg.Valid() && IsRun(cfg, states, events) && i < |events| && id in cfg.datasets
    requires events[i] == HookSkip(id)
    ensures k < i && Finishes(events[k], id)
    ensures SameFor(cfg, states[k + 1], states[i + 1], id)
    ensures !events[k].outcome.rulesError ==>
              (states[i + 1].Target(id) == Consequences(cfg, states[i + 1], id)
               <==> && Base(states[k], id, ExtendsAt(states[k], events[k], id)) <= Consequences(cfg, states[k], id)
                    && FailuresDoNotMatter(cfg, states[k + 1], id, events[k].outcome.failed))
  {
    OneStep(cfg, states, events, i);
    SkipIsInSync(cfg, states[i], states[i + 1], id);
    k := RecordedRun(cfg, states, events, i, id);
    OneStep(cfg, states, events, k);
    if !events[k].outcome.rulesError {
      FinishedRunIsExactExactlyWhen(cfg, states[k], events[k], states[k + 1], id);
    }
  }

  lemma SkipIsInSync(cfg: Config, s: State, s': State, id: DatasetId)
    requires id in cfg.datasets && Step(cfg, s, HookSkip(id), s')
    ensures InSync(s, id) && !cfg.datasets[id].dl
    ensures SameFor(cfg, s, s', id)
  {
  }

  lemma FinishedRunIsExactExactlyWhen(cfg: Config, s: State, e: Event, s': State, id: DatasetId)
    requires cfg.Valid() && id in cfg.datasets && Step(cfg, s, e, s') && Finishes(e, id) && !e.outcome.rulesError
    ensures s'.Target(id) == Consequences(cfg, s', id)
            <==> && Base(s, id, ExtendsAt(s, e, id)) <= Consequences(cfg, s, id)
                 && FailuresDoNotMatter(cfg, s', id, e.outcome.failed)
  {
    assert Consequences(cfg, StartOf(s, e, id), id) == Consequences(cfg, s, id);
    RunIsExactExactlyWhen(cfg, StartOf(s, e, id), id, ExtendsAt(s, e, id), e.outcome.failed, s');
  }

  // ── What stays behind ─────────────────────────────────────────────────────

  /** Whether `e`, from `s`, clears the graph of `id`. */
  predicate Rebuilds(s: State, e: Event, id: DatasetId) {
    match e
    case Rerun(ran, outcome) => ran == id && !outcome.Early?
    case HookRun(ran, outcome) => ran == id && !outcome.Early? && !s.Extends(id)
    case _ => false
  }

  lemma TriplesStay(cfg: Config, states: seq<State>, events: seq<Event>, k: nat, id: DatasetId)
    requires IsRun(cfg, states, events) && k < |events| && !Rebuilds(states[k], events[k], id)
    ensures states[k].Target(id) <= states[k + 1].Target(id)
  {
    assert Step(cfg, states[k], events[k], states[k + 1]);
  }

  /** Whatever was left behind stays, through any number of extending runs that end
      without error, until a rebuild gets to the clear. */
  lemma {:induction false} StaleTriplesStay(cfg: Config, states: seq<State>, events: seq<Event>, i: nat, j: nat,
                                            id: DatasetId)
    requires IsRun(cfg, states, events) && i <= j < |states|
    requires forall k {:trigger Rebuilds(states[k], events[k], id)} | i <= k < j :: !Rebuilds(states[k], events[k], id)
    ensures states[i].Target(id) <= states[j].Target(id)
  {
    if i < j {
      StaleTriplesStay(cfg, states, events, i, j - 1, id);
      TriplesStay(cfg, states, events, j - 1, id);
    }
  }
}
