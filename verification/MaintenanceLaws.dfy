/** What the history of the machine stands for, said of the events and the graphs alone. */
module MaintenanceLaws {
  import opened Rdf
  import opened FixedPoint
  import opened JointRun
  import opened Maintenance

  // ── What a dataset's graph should hold ────────────────────────────────────

  /** The triples of the graphs `names`. */
  function TriplesOf(graphs: Graphs, names: set<GraphName>): set<Triple> {
    set g, t | g in names && g in graphs && t in graphs[g] :: t
  }

  /** A rule stored with the dataset now, or one of its regime, derives `t` from `view`. */
  ghost predicate Derives(d: Dataset, graphs: Graphs, view: set<Triple>, t: Triple) {
    || (var stored := d.read(TriplesOf(graphs, d.ruleGraphs));
        stored.Readable? && exists rule :: rule in stored.rules && t in rule(view))
    || (d.regime.Some? && exists rule :: rule in d.regime.value && t in rule(view))
  }

  /** The axioms that come with the stored rules. */
  function AxiomsOf(d: Dataset, graphs: Graphs): set<Triple> {
    var stored := d.read(TriplesOf(graphs, d.ruleGraphs));
    if stored.Readable? then stored.aux else {}
  }

  lemma AxiomsAre(d: Dataset, graphs: Graphs)
    ensures AxiomsOf(d, graphs) == d.Aux(graphs)
  {
    TogetherIs(graphs, d.ruleGraphs);
  }

  lemma RulesDerive(d: Dataset, graphs: Graphs, view: set<Triple>, t: Triple)
    ensures Derives(d, graphs, view, t) <==> exists rule :: rule in d.Rules(graphs) && t in rule(view)
  {
    TogetherIs(graphs, d.ruleGraphs);
    var stored := d.StoredIn(graphs).Rules();
    assert forall rule :: rule in d.Rules(graphs) <==> rule in stored || (d.regime.Some? && rule in d.regime.value);
  }

  /** `c` holds the axioms and all that can be derived from the sources and `c` itself. */
  ghost predicate HoldsAll(cfg: Config, graphs: Graphs, id: DatasetId, c: set<Triple>)
    requires id in cfg.datasets
  {
    var d := cfg.datasets[id];
    && AxiomsOf(d, graphs) <= c
    && forall t | Derives(d, graphs, TriplesOf(graphs, d.sources) + c, t) :: t in c
  }

  /** The consequences are the least set of triples that holds all there is to derive. */
  lemma ConsequencesAreLeast(cfg: Config, s: State, id: DatasetId)
    requires cfg.Valid() && id in cfg.datasets
    ensures HoldsAll(cfg, s.graphs, id, Consequences(cfg, s, id))
    ensures forall c | c <= cfg.universe && HoldsAll(cfg, s.graphs, id, c) :: Consequences(cfg, s, id) <= c
  {
    var d := cfg.datasets[id];
    RulesBehave(cfg, id, s.graphs);
    ConsequencesHold(cfg, s, id);
    HoldsAllIsClosed(cfg, s, id, Consequences(cfg, s, id));
    forall c | c <= cfg.universe && HoldsAll(cfg, s.graphs, id, c)
      ensures Consequences(cfg, s, id) <= c
    {
      HoldsAllIsClosed(cfg, s, id, c);
      ClosureIsLeast(cfg.universe, d.Rules(s.graphs), d.SourceTriples(s.graphs), d.Aux(s.graphs), c);
    }
  }

  lemma HoldsAllIsClosed(cfg: Config, s: State, id: DatasetId, c: set<Triple>)
    requires id in cfg.datasets
    ensures var d := cfg.datasets[id];
            HoldsAll(cfg, s.graphs, id, c)
            <==> d.Aux(s.graphs) <= c && Closed(d.Rules(s.graphs), d.SourceTriples(s.graphs), c)
  {
    var d := cfg.datasets[id];
    var view := TriplesOf(s.graphs, d.sources) + c;
    TogetherIs(s.graphs, d.sources);
    AxiomsAre(d, s.graphs);
    if HoldsAll(cfg, s.graphs, id, c) {
      forall rule, t | rule in d.Rules(s.graphs) && t in rule(view)
        ensures t in c
      {
        RulesDerive(d, s.graphs, view, t);
      }
    }
    if Closed(d.Rules(s.graphs), d.SourceTriples(s.graphs), c) {
      forall t | Derives(d, s.graphs, view, t)
        ensures t in c
      {
        RulesDerive(d, s.graphs, view, t);
      }
    }
  }

  // ── What a write may take away ────────────────────────────────────────────

  /** Rules only grow when whatever could be derived still can, and no axiom goes. */
  lemma RulesOnlyGrowExactlyWhen(d: Dataset, graphs: Graphs, graphs': Graphs)
    ensures d.RulesOnlyGrow(graphs, graphs')
            <==> && (forall view, t | Derives(d, graphs, view, t) :: Derives(d, graphs', view, t))
                 && AxiomsOf(d, graphs) <= AxiomsOf(d, graphs')
  {
    AxiomsAre(d, graphs);
    AxiomsAre(d, graphs');
    if forall view, t | Derives(d, graphs, view, t) :: Derives(d, graphs', view, t) {
      forall rule, view: set<Triple>, t | rule in d.Rules(graphs) && t in rule(view)
        ensures exists rule' :: rule' in d.Rules(graphs') && t in rule'(view)
      {
        RulesDerive(d, graphs, view, t);
        RulesDerive(d, graphs', view, t);
      }
    }
    if Covered(d.Rules(graphs), d.Rules(graphs')) {
      forall view, t | Derives(d, graphs, view, t)
        ensures Derives(d, graphs', view, t)
      {
        RulesDerive(d, graphs, view, t);
        RulesDerive(d, graphs', view, t);
      }
    }
  }

  /** A write that may have taken a consequence from `id`, which the hook will find. */
  ghost predicate MayTake(cfg: Config, s: State, e: Event, s': State, id: DatasetId)
    requires id in cfg.datasets
  {
    var d := cfg.datasets[id];
    && e.Write? && (exists g :: g in e.written && g in d.owned)
    && !(e.isAdditive && d.RulesOnlyGrow(s.graphs, s'.graphs))
    && (d.regime.Some? || !d.read(TriplesOf(s'.graphs, d.ruleGraphs)).NoRules?)
  }

  /** A run of `id`, or a lookup of it that failed. */
  predicate DealsWith(e: Event, id: DatasetId) {
    (e.HookMiss? || e.HookRun? || e.Rerun?) && e.id == id
  }

  /** Step `k` may have taken something, and nothing dealt with it until `i`. */
  ghost predicate OpenSince(cfg: Config, states: seq<State>, events: seq<Event>, k: nat, i: nat, id: DatasetId)
    requires id in cfg.datasets && i <= |events| < |states|
  {
    k < i && MayTake(cfg, states[k], events[k], states[k + 1], id) && forall j | k < j < i :: !DealsWith(events[j], id)
  }

  lemma ShrunkStep(cfg: Config, s: State, e: Event, s': State, id: DatasetId)
    requires Step(cfg, s, e, s') && id in cfg.datasets
    ensures id in s'.shrunk <==> MayTake(cfg, s, e, s', id) || (id in s.shrunk && !DealsWith(e, id))
  {
    var d := cfg.datasets[id];
    TogetherIs(s'.graphs, d.ruleGraphs);
    if e.Write? {
      assert forall g :: g in d.owned * e.written <==> g in e.written && g in d.owned;
    }
  }

  /** Over every run a dataset counts as having lost something exactly when a write may have
      taken it and neither a run nor a failed lookup has dealt with that since. */
  lemma {:induction false} ShrunkExactlyWhen(cfg: Config, states: seq<State>, events: seq<Event>, i: nat, id: DatasetId)
    requires IsRun(cfg, states, events) && i < |states| && id in cfg.datasets
    ensures id in states[i].shrunk <==> exists k: nat :: OpenSince(cfg, states, events, k, i, id)
  {
    if i > 0 {
      assert Step(cfg, states[i - 1], events[i - 1], states[i]);
      ShrunkExactlyWhen(cfg, states, events, i - 1, id);
      ShrunkStep(cfg, states[i - 1], events[i - 1], states[i], id);
      OpenStep(cfg, states, events, i - 1, i, id);
    }
  }

  lemma OpenStep(cfg: Config, states: seq<State>, events: seq<Event>, i: nat, next: nat, id: DatasetId)
    requires id in cfg.datasets && i < |events| < |states| && next == i + 1
    ensures (exists k: nat :: OpenSince(cfg, states, events, k, next, id))
            <==> || MayTake(cfg, states[i], events[i], states[i + 1], id)
                 || ((exists k: nat :: OpenSince(cfg, states, events, k, i, id)) && !DealsWith(events[i], id))
  {
    if MayTake(cfg, states[i], events[i], states[i + 1], id) {
      assert OpenSince(cfg, states, events, i, next, id);
    } else if k: nat :| OpenSince(cfg, states, events, k, next, id) {
      assert OpenSince(cfg, states, events, k, i, id) && !DealsWith(events[i], id);
    } else if k: nat :| OpenSince(cfg, states, events, k, i, id) {
      assert !DealsWith(events[i], id) ==> OpenSince(cfg, states, events, k, next, id);
    }
  }

  /** A run of `id` that rebuilds its graph, and gets past the clear. */
  predicate Clears(s: State, e: Event, id: DatasetId) {
    (e.HookRun? || e.Rerun?) && e.id == id && !e.outcome.Early? && !(e.HookRun? && s.additive && id in s.last)
  }

  /** Nothing vouches for a graph exactly from a step that leaves it stale, or from the
      start, until a run of its dataset clears it. */
  lemma StaleStep(cfg: Config, s: State, e: Event, s': State, id: DatasetId)
    requires Step(cfg, s, e, s') && id in cfg.datasets
    ensures id in s'.stale <==> LeavesStale(cfg, s, e, s', id) || (id in s.stale && !Clears(s, e, id))
  {
    if e.Write? {
      var d := cfg.datasets[id];
      assert forall g :: g in d.owned * e.written <==> g in e.written && g in d.owned;
    }
  }
}
