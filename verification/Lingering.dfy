/** Runs of the maintenance on one dataset with one stored rule in which the graph ends up
    with what a rebuild would not derive, or without what it would. */
module Lingering {
  import opened Rdf
  import opened FixedPoint
  import opened JointRun
  import opened Maintenance

  const IMP := Triple(Iri("ex:rule"), RDF_TYPE, Resource(Iri("http://www.w3.org/2003/11/swrl#Imp")))
  const BODY := Triple(Iri("ex:rule"), "http://www.w3.org/2003/11/swrl#body", Resource(Blank("body")))

  /** A rule without a body holds of everything. */
  function Always(view: set<Triple>): set<Triple> {
    {CONCLUSION}
  }

  /** The rule concludes CONCLUSION: from PREMISE if it has a body, else always. */
  function ReadRule(triples: set<Triple>): Stored {
    if IMP !in triples then NoRules
    else if BODY in triples then Readable([FromPremise], {})
    else Readable([Always], {})
  }

  /** One dataset "d" without a regime, its data in "g" and its rule in "r". */
  function Cfg(): Config {
    Config({PREMISE, CONCLUSION}, map["d" := Dataset({"g", "r"}, {"g"}, None, false, {"r"}, ReadRule)])
  }

  predicate Draws(graphs: Graphs) {
    var stored := Content(graphs, "r");
    IMP in stored && (BODY !in stored || PREMISE in Content(graphs, "g"))
  }

  lemma CfgIsValid()
    ensures Cfg().Valid()
  {
    forall triples: set<Triple>
      ensures WellBehaved(Cfg().universe, Joint(ReadRule(triples).Rules(), None))
    {
      var rules := ReadRule(triples).Rules();
      assert forall rule | rule in rules :: rule == FromPremise || rule == Always;
    }
  }

  lemma RulesRead(graphs: Graphs)
    ensures Cfg().datasets["d"].SourceTriples(graphs) == Content(graphs, "g")
    ensures Cfg().datasets["d"].StoredIn(graphs) == ReadRule(Content(graphs, "r"))
    ensures Cfg().datasets["d"].Rules(graphs) == ReadRule(Content(graphs, "r")).Rules()
    ensures Cfg().datasets["d"].Aux(graphs) == {}
  {
    assert Together(graphs, {"g"}) == Content(graphs, "g");
    assert Together(graphs, {"r"}) == Content(graphs, "r");
  }

  lemma ClosureIs(graphs: Graphs, base: set<Triple>)
    requires base <= {CONCLUSION}
    ensures var d := Cfg().datasets["d"];
            Closure(Cfg().universe, d.Rules(graphs), d.SourceTriples(graphs), base)
            == if Draws(graphs) then {CONCLUSION} else base
  {
    var d := Cfg().datasets["d"];
    var rules, sources, c := d.Rules(graphs), d.SourceTriples(graphs), if Draws(graphs) then {CONCLUSION} else base;
    CfgIsValid();
    RulesRead(graphs);
    RulesBehave(Cfg(), "d", graphs);
    assert forall rule | rule in rules :: rule == rules[0];
    assert Closed(rules, sources, c);
    ClosureIsLeast(Cfg().universe, rules, sources, base, c);
    ClosureHolds(Cfg().universe, rules, sources, base);
    assert Draws(graphs) ==> rules[0] in rules;
  }

  lemma ConsequencesAre(s: State)
    ensures Consequences(Cfg(), s, "d") == if Draws(s.graphs) then {CONCLUSION} else {}
  {
    RulesRead(s.graphs);
    ClosureIs(s.graphs, {});
  }

  // ── Single steps ──────────────────────────────────────────────────────────

  /** What a run without error or failed rule makes of `base`. */
  function Derived(s: State, extend: bool): set<Triple> {
    if Draws(s.graphs) then {CONCLUSION} else Base(s, "d", extend)
  }

  function After(s: State, extend: bool, outcome: Outcome, target: set<Triple>): State {
    Recorded(s, "d", extend, outcome, s.targets["d" := target], s.generation + 1)
  }

  lemma RunDerives(s: State, extend: bool)
    requires s.Target("d") <= {CONCLUSION}
    ensures RunStep(Cfg(), s, "d", extend, Finished(false, {}),
                    After(s, extend, Finished(false, {}), Derived(s, extend)))
  {
    RulesRead(s.graphs);
    assert Base(s, "d", extend) + {} == Base(s, "d", extend);
    ClosureIs(s.graphs, Base(s, "d", extend));
  }

  /** The rules stop short before they derive anything. */
  lemma RunStopsShort(s: State)
    ensures RunStep(Cfg(), s, "d", false, Finished(true, {}), After(s, false, Finished(true, {}), {}))
  {
  }

  /** The rule fails every time. */
  lemma RuleFails(s: State)
    requires Draws(s.graphs)
    ensures RunStep(Cfg(), s, "d", false, Finished(false, {0}), After(s, false, Finished(false, {0}), {}))
    ensures !FailuresDoNotMatter(Cfg(), After(s, false, Finished(false, {0}), {}), "d", {0})
  {
    var s' := After(s, false, Finished(false, {0}), {});
    RulesRead(s.graphs);
    RulesRead(s'.graphs);
    ClosureIs(s.graphs, {});
    var rules := ReadRule(Content(s.graphs, "r")).Rules();
    assert CONCLUSION in rules[0](Content(s.graphs, "g") + {});
    assert !AddsNothing(rules, 0, Content(s.graphs, "g"), {});
  }

  lemma Touches(g: GraphName)
    requires g in {"g", "r"}
    ensures Cfg().Touched({g}) == {"d"}
  {
    assert g in Cfg().datasets["d"].owned * {g};
  }

  /** The rule of `graphs` is gone from `graphs'`, or has got a body. */
  predicate Weakens(graphs: Graphs, graphs': Graphs) {
    var (stored, stored') := (Content(graphs, "r"), Content(graphs', "r"));
    IMP in stored && (IMP !in stored' || (BODY !in stored && BODY in stored'))
  }

  lemma RulesGrowUnlessWeakened(graphs: Graphs, graphs': Graphs)
    ensures Cfg().datasets["d"].RulesOnlyGrow(graphs, graphs') <==> !Weakens(graphs, graphs')
  {
    RulesRead(graphs);
    RulesRead(graphs');
    var rules, rules' := ReadRule(Content(graphs, "r")).Rules(), ReadRule(Content(graphs', "r")).Rules();
    if Covered(rules, rules') && rules == [Always] {
      assert rules[0] in rules && CONCLUSION in rules[0]({});
      var rule' :| rule' in rules' && CONCLUSION in rule'({});
    }
    if Covered(rules, rules') && rules == [FromPremise] {
      assert rules[0] in rules && CONCLUSION in rules[0]({PREMISE});
      var rule' :| rule' in rules' && CONCLUSION in rule'({PREMISE});
    }
    if rules' == [Always] {
      assert rules'[0] in rules';
    }
  }

  /** What a write to one graph leads to. */
  function Wrote(s: State, g: GraphName, triples: set<Triple>, isAdditive: bool, shrinks: bool, found: bool): State {
    s.(graphs := s.graphs[g := triples],
       generation := s.generation + 1,
       due := if found then {"d"} else {},
       hookGeneration := s.generation + 1,
       additive := isAdditive,
       shrunk := if shrinks && found then s.shrunk + {"d"} else s.shrunk,
       stale := if shrinks && !found then s.stale + {"d"} else s.stale,
       exact := s.exact - {"d"})
  }

  lemma OwnersAre(g: GraphName, graphs: Graphs)
    requires g in {"g", "r"}
    ensures Cfg().Touched({g}) == {"d"}
    ensures Cfg().datasets["d"].Reasons(graphs) <==> !ReadRule(Content(graphs, "r")).NoRules?
    ensures Cfg().Owners({g}, graphs) == if Cfg().datasets["d"].Reasons(graphs) then {"d"} else {}
  {
    Touches(g);
    RulesRead(graphs);
  }

  lemma ShrinkingIs(g: GraphName, isAdditive: bool, graphs: Graphs, graphs': Graphs)
    requires g in {"g", "r"}
    ensures Cfg().Shrinking({g}, isAdditive, graphs, graphs')
            == if isAdditive && Cfg().datasets["d"].RulesOnlyGrow(graphs, graphs') then {} else {"d"}
  {
    Touches(g);
  }

  lemma WrittenIs(cfg: Config, s: State, g: GraphName, triples: set<Triple>, isAdditive: bool, shrinks: bool,
                  found: bool)
    requires s.due == {} && cfg.Touched({g}) == {"d"}
    requires cfg.Shrinking({g}, isAdditive, s.graphs, s.graphs[g := triples]) == if shrinks then {"d"} else {}
    requires cfg.Owners({g}, s.graphs[g := triples]) == if found then {"d"} else {}
    ensures Written(cfg, s, {g}, isAdditive, s.graphs[g := triples], s.generation + 1)
            == Wrote(s, g, triples, isAdditive, shrinks, found)
  {
    assert {"d"} * {"d"} == {"d"} && {"d"} * {} == {} && {} * {"d"} == {} && {"d"} - {"d"} == {} && {} - {"d"} == {};
    assert s.shrunk + {} == s.shrunk && s.stale + {} == s.stale;
  }

  lemma WriteIs(s: State, g: GraphName, triples: set<Triple>, isAdditive: bool, shrinks: bool, found: bool)
    requires g in {"g", "r"} && s.due == {}
    requires shrinks <==> !isAdditive || Weakens(s.graphs, s.graphs[g := triples])
    requires found <==> IMP in Content(s.graphs[g := triples], "r")
    ensures Written(Cfg(), s, {g}, isAdditive, s.graphs[g := triples], s.generation + 1)
            == Wrote(s, g, triples, isAdditive, shrinks, found)
    ensures "d" in Cfg().Shrinking({g}, isAdditive, s.graphs, s.graphs[g := triples]) <==> shrinks
    ensures Cfg().datasets["d"].Reasons(s.graphs[g := triples]) <==> found
  {
    OwnersAre(g, s.graphs[g := triples]);
    ShrinkingIs(g, isAdditive, s.graphs, s.graphs[g := triples]);
    RulesGrowUnlessWeakened(s.graphs, s.graphs[g := triples]);
    WrittenIs(Cfg(), s, g, triples, isAdditive, shrinks, found);
  }

  // ── Runs step by step ─────────────────────────────────────────────────────

  /** A run of which only the step `at` leaves "d" stale. */
  ghost predicate StaleAt(states: seq<State>, events: seq<Event>, at: nat) {
    && IsRun(Cfg(), states, events)
    && forall k | 0 <= k < |events| :: LeavesStale(Cfg(), states[k], events[k], states[k + 1], "d") <==> k == at
  }

  lemma RunExtends(states: seq<State>, events: seq<Event>, at: nat, e: Event, s: State)
    requires StaleAt(states, events, at) && Step(Cfg(), states[|events|], e, s)
    requires LeavesStale(Cfg(), states[|events|], e, s, "d") <==> |events| == at
    ensures StaleAt(states + [s], events + [e], at)
  {
    forall i | 0 <= i < |events| + 1
      ensures Step(Cfg(), (states + [s])[i], (events + [e])[i], (states + [s])[i + 1])
      ensures LeavesStale(Cfg(), (states + [s])[i], (events + [e])[i], (states + [s])[i + 1], "d") <==> i == at
    {
      if i < |events| {
        assert Step(Cfg(), states[i], events[i], states[i + 1]);
        assert LeavesStale(Cfg(), states[i], events[i], states[i + 1], "d") <==> i == at;
      }
    }
  }

  lemma ThenWrite(states: seq<State>, events: seq<Event>, at: nat, s: State, g: GraphName, triples: set<Triple>,
                  isAdditive: bool,
                  shrinks: bool, found: bool)
    requires StaleAt(states, events, at) && s == states[|events|] && (shrinks && !found <==> |events| == at)
    requires && g in {"g", "r"} && s.due == {} && (isAdditive ==> Content(s.graphs, g) <= triples)
             && (shrinks <==> !isAdditive || Weakens(s.graphs, s.graphs[g := triples]))
             && (found <==> IMP in Content(s.graphs[g := triples], "r"))
    ensures StaleAt(states + [Wrote(s, g, triples, isAdditive, shrinks, found)], events + [Write({g}, isAdditive)], at)
  {
    WriteIs(s, g, triples, isAdditive, shrinks, found);
    RunExtends(states, events, at, Write({g}, isAdditive), Wrote(s, g, triples, isAdditive, shrinks, found));
  }

  function Start(graphs: Graphs): State {
    State(graphs, map[], map[], 0, {}, 0, false, {}, {"d"}, {}, {})
  }

  function Hooked(s: State): State {
    s.(due := {"d"}, hookGeneration := s.generation, additive := false)
  }

  lemma ThenHook(states: seq<State>, events: seq<Event>, at: nat, s: State)
    requires StaleAt(states, events, at) && s == states[|events|] && |events| != at
    requires s.due == {} && IMP in Content(s.graphs, "r")
    ensures StaleAt(states + [Hooked(s)], events + [Hook({"r"}, false)], at)
  {
    Touches("r");
    RulesRead(s.graphs);
    assert Cfg().Owners({"r"}, s.graphs) == {"d"};
    RunExtends(states, events, at, Hook({"r"}, false), Hooked(s));
  }

  /** The hook runs "d". */
  lemma ThenRun(states: seq<State>, events: seq<Event>, at: nat, s: State, outcome: Outcome, s': State)
    requires StaleAt(states, events, at) && s == states[|events|]
    requires && s.due == {"d"} && !("d" in s.last && s.last["d"] == s.hookGeneration)
             && RunStep(Cfg(), s.(due := {}), "d", s.Extends("d"), outcome, s')
             && ("d" in s.shrunk && (outcome.Early? || s.Extends("d")) <==> |events| == at)
    ensures StaleAt(states + [s'], events + [HookRun("d", outcome)], at)
  {
    assert s.(due := s.due - {"d"}) == s.(due := {});
    RunExtends(states, events, at, HookRun("d", outcome), s');
  }

  /** The state after the hook has run "d" for the first time. */
  function First(graphs: Graphs, outcome: Outcome, target: set<Triple>): State {
    var reliable := outcome == Finished(false, {});
    State(graphs, map["d" := target], map["d" := 1], 1, {}, 0, false, {}, {},
          if reliable then {"d"} else {}, if reliable then {} else {"d"})
  }

  function FirstEvents(outcome: Outcome): seq<Event> {
    [Hook({"r"}, false), HookRun("d", outcome)]
  }

  lemma FirstRun(graphs: Graphs, outcome: Outcome, target: set<Triple>, at: nat) returns (states: seq<State>)
    requires IMP in Content(graphs, "r") && outcome.Finished? && at > 1
    requires var from := Hooked(Start(graphs)).(due := {});
             RunStep(Cfg(), from, "d", false, outcome, After(from, false, outcome, target))
    ensures StaleAt(states, FirstEvents(outcome), at)
    ensures states == [Start(graphs), Hooked(Start(graphs)), First(graphs, outcome, target)]
  {
    var s := Start(graphs);
    var s' := After(Hooked(s).(due := {}), false, outcome, target);
    ThenHook([s], [], at, s);
    assert [s] + [Hooked(s)] == [s, Hooked(s)] && [] + [Hook({"r"}, false)] == [Hook({"r"}, false)];
    ThenRun([s, Hooked(s)], [Hook({"r"}, false)], at, Hooked(s), outcome, s');
    states := [s, Hooked(s), s'];
    assert {"d"} - {"d"} == {} && {} - {"d"} == {} && {} + {"d"} == {"d"};
    assert [s, Hooked(s)] + [s'] == states;
    assert [Hook({"r"}, false)] + [HookRun("d", outcome)] == FirstEvents(outcome);
  }

  lemma GoodFirstRun(graphs: Graphs, at: nat) returns (states: seq<State>)
    requires Draws(graphs) && at > 1
    ensures StaleAt(states, FirstEvents(Finished(false, {})), at)
    ensures states == [Start(graphs), Hooked(Start(graphs)), First(graphs, Finished(false, {}), {CONCLUSION})]
  {
    RunDerives(Hooked(Start(graphs)).(due := {}), false);
    states := FirstRun(graphs, Finished(false, {}), {CONCLUSION}, at);
  }

  function Extended(s: State): State {
    After(s.(due := {}), true, Finished(false, {}), {CONCLUSION})
  }

  /** The hook extends the graph, without error, and what was there stays. */
  lemma ThenExtend(states: seq<State>, events: seq<Event>, at: nat, s: State)
    requires StaleAt(states, events, at) && s == states[|events|]
    requires && s.due == {"d"} && s.Extends("d") && s.last["d"] != s.hookGeneration
             && s.Target("d") == {CONCLUSION} && !Draws(s.graphs)
             && ("d" in s.shrunk <==> |events| == at)
    ensures StaleAt(states + [Extended(s)], events + [HookRun("d", Finished(false, {}))], at)
    ensures !Sound(Cfg(), Extended(s), "d")
  {
    RunDerives(s.(due := {}), true);
    ThenRun(states, events, at, s, Finished(false, {}), Extended(s));
    NotDrawn(Extended(s));
  }

  lemma NotDrawn(s: State)
    requires CONCLUSION in s.Target("d") && !Draws(s.graphs)
    ensures !Sound(Cfg(), s, "d")
  {
    ConsequencesAre(s);
  }

  // ── Consequences that stay ────────────────────────────────────────────────

  function Unpremised(): State {
    Wrote(First(map["r" := {IMP, BODY}, "g" := {PREMISE}], Finished(false, {}), {CONCLUSION}), "g", {}, false, true,
          true)
  }

  lemma PremiseRemoved() returns (states: seq<State>)
    ensures StaleAt(states, FirstEvents(Finished(false, {})) + [Write({"g"}, false)], 3) && states[3] == Unpremised()
  {
    var graphs: Graphs := map["r" := {IMP, BODY}, "g" := {PREMISE}];
    states := GoodFirstRun(graphs, 3);
    var s2 := First(graphs, Finished(false, {}), {CONCLUSION});
    ThenWrite(states, FirstEvents(Finished(false, {})), 3, s2, "g", {}, false, true, true);
    states := states + [Unpremised()];
  }

  /** A premise is removed, but the rebuild fails before the clear; then an additive write
      extends the graph. The last run ends without error, and the conclusion is still
      there. Only the failed rebuild left it. */
  lemma ConsequencesLingerAfterEarlyFailure() returns (states: seq<State>, events: seq<Event>)
    ensures StaleAt(states, events, 3) && |events| == 6
    ensures events[3] == HookRun("d", Early) && events[5] == HookRun("d", Finished(false, {}))
    ensures !Sound(Cfg(), states[6], "d")
  {
    var s3 := Unpremised();
    events := FirstEvents(Finished(false, {})) + [Write({"g"}, false)];
    states := PremiseRemoved();
    var s4 := Recorded(s3.(due := {}), "d", false, Early, s3.targets, s3.generation);
    ThenRun(states, events, 3, s3, Early, s4);
    states, events := states + [s4], events + [HookRun("d", Early)];
    var s5 := Wrote(s4, "g", {}, true, false, true);
    ThenWrite(states, events, 3, s4, "g", {}, true, false, true);
    states, events := states + [s5], events + [Write({"g"}, true)];
    ThenExtend(states, events, 3, s5);
    states, events := states + [Extended(s5)], events + [HookRun("d", Finished(false, {}))];
  }

  /** A rule without a body has drawn its conclusion; an additive write gives it a body
      that nothing satisfies. The graph is extended without error, and the conclusion is
      still there. No step failed; only the extension left it. */
  lemma ConsequencesLingerAfterAdditiveWrite() returns (states: seq<State>, events: seq<Event>)
    ensures StaleAt(states, events, 3) && |events| == 4
    ensures events[2] == Write({"r"}, true) && events[3] == HookRun("d", Finished(false, {}))
    ensures !Sound(Cfg(), states[4], "d")
  {
    var graphs: Graphs := map["r" := {IMP}];
    events := FirstEvents(Finished(false, {}));
    states := GoodFirstRun(graphs, 3);
    var s2 := First(graphs, Finished(false, {}), {CONCLUSION});
    var s3 := Wrote(s2, "r", {IMP, BODY}, true, true, true);
    ThenWrite(states, events, 3, s2, "r", {IMP, BODY}, true, true, true);
    states, events := states + [s3], events + [Write({"r"}, true)];
    ThenExtend(states, events, 3, s3);
    states, events := states + [Extended(s3)], events + [HookRun("d", Finished(false, {}))];
  }

  /** The only rule of a dataset without a regime is removed: the hook no longer considers
      the dataset, and the conclusion stays. The next rule, whatever it derives, extends
      the graph. Only the removal left it. */
  lemma ConsequencesLingerWithoutRules() returns (states: seq<State>, events: seq<Event>)
    ensures StaleAt(states, events, 2) && |events| == 5
    ensures events[2] == Write({"r"}, false) && states[3].due == {} && !Sound(Cfg(), states[3], "d")
    ensures events[4] == HookRun("d", Finished(false, {})) && !Sound(Cfg(), states[5], "d")
  {
    var graphs: Graphs := map["r" := {IMP}];
    events := FirstEvents(Finished(false, {}));
    states := GoodFirstRun(graphs, 2);
    var s2 := First(graphs, Finished(false, {}), {CONCLUSION});
    var s3 := Wrote(s2, "r", {}, false, true, false);
    ThenWrite(states, events, 2, s2, "r", {}, false, true, false);
    states, events := states + [s3], events + [Write({"r"}, false)];
    NotDrawn(s3);
    var s4 := Wrote(s3, "r", {IMP, BODY}, true, false, true);
    ThenWrite(states, events, 2, s3, "r", {IMP, BODY}, true, false, true);
    states, events := states + [s4], events + [Write({"r"}, true)];
    ThenExtend(states, events, 2, s4);
    states, events := states + [Extended(s4)], events + [HookRun("d", Finished(false, {}))];
  }

  // ── Consequences that are missing ─────────────────────────────────────────

  /** A run whose rules stop short, or whose rule fails, is recorded as in sync: the hook
      skips the dataset after it, and the graph lacks a consequence. */
  lemma SkipsRestOnIncompleteRuns(outcome: Outcome) returns (states: seq<State>, events: seq<Event>)
    requires outcome == Finished(true, {}) || outcome == Finished(false, {0})
    ensures IsRun(Cfg(), states, events)
    ensures events == [Hook({"r"}, false), HookRun("d", outcome), Hook({"r"}, false), HookSkip("d")]
    ensures states[4].Target("d") == {} && Consequences(Cfg(), states[4], "d") == {CONCLUSION}
  {
    var graphs: Graphs := map["r" := {IMP}];
    var from := Hooked(Start(graphs)).(due := {});
    RunStopsShort(from);
    RuleFails(from);
    events := FirstEvents(outcome);
    states := FirstRun(graphs, outcome, {}, 9);
    var s2 := First(graphs, outcome, {});
    ThenHook(states, events, 9, s2);
    states, events := states + [Hooked(s2)], events + [Hook({"r"}, false)];
    ThenSkip(states, events, 9, Hooked(s2));
    states, events := states + [Hooked(s2).(due := {})], events + [HookSkip("d")];
    ConsequencesAre(Hooked(s2).(due := {}));
  }

  lemma ThenSkip(states: seq<State>, events: seq<Event>, at: nat, s: State)
    requires StaleAt(states, events, at) && s == states[|events|] && |events| != at
    requires s.due == {"d"} && "d" in s.last && s.last["d"] == s.hookGeneration
    ensures StaleAt(states + [s.(due := {})], events + [HookSkip("d")], at)
  {
    assert s.due - {"d"} == {};
    RunExtends(states, events, at, HookSkip("d"), s.(due := {}));
  }
}
