/** The annotations of a row, property by property: each says one thing of the row, and all
    there is to say is said. */
module ProvenanceValues {
  import opened Rdf
  import opened StatementProvenance

  /** `a` says something true of what `op` did to `q` in `row`. */
  predicate SaysOfChange(op: string, q: Quad, row: Row, profile: Profile, a: Annotation) {
    match a.property
    case Reifies => a.subj == Reifier(q) && a.value == TripleValue(Triple(q.subj, q.pred, q.obj))
    case InGraph => a.subj == Reifier(q) && q.graph.Some? && a.value == NameValue(Plain(q.graph.value))
    case Change => a.subj == Reifier(q) && a.value == NameValue(Event(q, row.seq_))
    case Op => a.subj == Event(q, row.seq_) && a.value == Text(op)
    case Seq => a.subj == Event(q, row.seq_) && a.value == Number(row.seq_)
    case WasGeneratedBy =>
      a.subj == Event(q, row.seq_) && row.commit.Some? && a.value == NameValue(Plain(row.commit.value))
    case DerivedBy => a.subj == Event(q, row.seq_) && IsRegime(row.graph, a.value)
    case WasAssociatedWith =>
      a.subj == Event(q, row.seq_) && profile.Full? && row.actor.Some? && a.value == NameValue(Plain(row.actor.value))
    case AtTime => a.subj == Event(q, row.seq_) && profile.Full? && a.value == DateTime(row.createdAt)
    case _ => false
  }

  /** `value` names the regime of the entailment graph that `graph` is. */
  predicate IsRegime(graph: Option<string>, value: Value) {
    RegimeOf(graph).Some? && value == NameValue(Plain("https://opentriplestore.org/ns#regime/" + RegimeOf(graph).value))
  }

  /** The regime is what stands between the prefix and the next colon. */
  lemma {:induction false} RegimeStandsBeforeTheColon(regime: string, rest: string)
    requires ':' !in regime
    ensures RegimeOf(Some("urn:entailment:" + regime + ":" + rest)) == Some(regime)
  {
    BeforeColonIs(regime, rest);
    var all := "urn:entailment:" + regime + ":" + rest;
    assert all[|ENTAILMENT_PREFIX|..] == regime + ":" + rest;
    assert ENTAILMENT_PREFIX <= all;
  }

  lemma {:induction false} BeforeColonIs(s: string, rest: string)
    requires ':' !in s
    ensures BeforeColon(s + ":" + rest) == Some(s)
  {
    var all := s + ":" + rest;
    if s != "" {
      assert all[1..] == s[1..] + ":" + rest;
      assert s == [s[0]] + s[1..];
      BeforeColonIs(s[1..], rest);
    }
  }

  lemma {:induction false} NoColonNoRegime(s: string)
    ensures ':' !in s ==> BeforeColon(s).None?
  {
    if s != "" {
      NoColonNoRegime(s[1..]);
    }
  }

  /** Other graphs have none. */
  lemma OtherGraphsHaveNoRegime(graph: Option<string>)
    requires graph.Some? && "urn:entailment:" <= graph.value ==> ':' !in graph.value[15..]
    ensures RegimeOf(graph).None?
  {
    if graph.Some? && "urn:entailment:" <= graph.value {
      NoColonNoRegime(graph.value[15..]);
    }
  }

  lemma StatementSaysAll(op: string, q: Quad, row: Row, ds: DatasetId, profile: Profile, a: Annotation)
    ensures a in Statement(q, ds)
            <==> && a.dataset == ds && SaysOfChange(op, q, row, profile, a)
                 && (a.property.Reifies? || a.property.InGraph?)
  {
    var said := Statement(q, ds);
    assert said[0] == Annotation(Reifier(q), Reifies, TripleValue(Triple(q.subj, q.pred, q.obj)), ds);
    if q.graph.Some? {
      assert said[1] == Annotation(Reifier(q), InGraph, NameValue(Plain(q.graph.value)), ds);
    }
  }

  lemma HappeningSaysAll(op: string, q: Quad, row: Row, ds: DatasetId, profile: Profile, a: Annotation)
    ensures a in Happening(op, q, row, ds)
            <==> && a.dataset == ds && SaysOfChange(op, q, row, profile, a)
                 && (a.property.Change? || a.property.Op? || a.property.Seq?)
  {
  }

  lemma OriginSaysAll(op: string, q: Quad, row: Row, ds: DatasetId, profile: Profile, a: Annotation)
    ensures a in Origin(q, row, ds)
            <==> && a.dataset == ds && SaysOfChange(op, q, row, profile, a)
                 && (a.property.WasGeneratedBy? || a.property.DerivedBy?)
  {
    var said, event := Origin(q, row, ds), Event(q, row.seq_);
    if row.commit.Some? {
      assert said[0] == Annotation(event, WasGeneratedBy, NameValue(Plain(row.commit.value)), ds);
    }
    if RegimeOf(row.graph).Some? {
      assert said[|said| - 1]
             == Annotation(event, DerivedBy, NameValue(Plain(OTS + "regime/" + RegimeOf(row.graph).value)), ds);
      assert OTS + "regime/" == "https://opentriplestore.org/ns#regime/";
    }
  }

  lemma WhoAndWhenSayAll(op: string, q: Quad, row: Row, ds: DatasetId, profile: Profile, a: Annotation)
    ensures a in (if profile.Full? then WhoAndWhen(q, row, ds) else [])
            <==> && a.dataset == ds && SaysOfChange(op, q, row, profile, a)
                 && (a.property.WasAssociatedWith? || a.property.AtTime?)
  {
    var said, event := WhoAndWhen(q, row, ds), Event(q, row.seq_);
    if row.actor.Some? {
      assert said[0] == Annotation(event, WasAssociatedWith, NameValue(Plain(row.actor.value)), ds);
    }
    assert said[|said| - 1] == Annotation(event, AtTime, DateTime(row.createdAt), ds);
  }

  lemma ChangeSaysAll(op: string, q: Quad, row: Row, ds: DatasetId, profile: Profile, a: Annotation)
    ensures a in ChangeAnnotations(op, q, row, ds, profile) <==> a.dataset == ds && SaysOfChange(op, q, row, profile, a)
  {
    InEither(WhatWasDone(op, q, row, ds), if profile.Full? then WhoAndWhen(q, row, ds) else [], a);
    InOneOf(Statement(q, ds), Happening(op, q, row, ds), Origin(q, row, ds), a);
    StatementSaysAll(op, q, row, ds, profile, a);
    HappeningSaysAll(op, q, row, ds, profile, a);
    OriginSaysAll(op, q, row, ds, profile, a);
    WhoAndWhenSayAll(op, q, row, ds, profile, a);
  }

  /** The statements, by place, that have a blank node for subject or object. */
  function SkippedIn(quads: seq<Quad>): set<nat> {
    set i: nat | i < |quads| && (quads[i].subj.Blank? || (quads[i].obj.Resource? && quads[i].obj.node.Blank?))
  }

  lemma {:induction false} CountBlankIs(quads: seq<Quad>)
    ensures CountBlank(quads) == |SkippedIn(quads)|
  {
    if quads != [] {
      var prefix, last: nat := quads[..|quads| - 1], |quads| - 1;
      CountBlankIs(prefix);
      assert forall i: nat | i < |prefix| :: prefix[i] == quads[i];
      assert SkippedIn(quads) == SkippedIn(prefix) + if HasBlank(quads[last]) then {last} else {};
    }
  }

  /** `op` changed one of `quads`, and `a` says something true of that. */
  ghost predicate SaysOfOne(op: string, quads: seq<Quad>, row: Row, profile: Profile, a: Annotation) {
    exists q :: q in quads && q.subj.Iri? && !(q.obj.Resource? && q.obj.node.Blank?)
        && SaysOfChange(op, q, row, profile, a)
  }

  /** `a` is about the gap that `row` leaves: what it is, where it is, and, with `skipped`
      statements left out, how many these are, or, with nothing carried, of which graph. */
  predicate SaysOfGap(row: Row, skipped: nat, a: Annotation) {
    && a.subj == Gap(row.epoch, row.seq_)
    && match a.property
       case IsA => a.value == NameValue(Plain("https://opentriplestore.org/ns#ProvenanceGap"))
       case Seq => a.value == Number(row.seq_)
       case SkippedBlankNodeStatements => skipped > 0 && a.value == Number(skipped)
       case InGraph => skipped == 0 && row.graph.Some? && a.value == NameValue(Plain(row.graph.value))
       case _ => false
  }

  /** A row's annotations are what can truly be said of its changes, one by one, and of the
      statements it skipped; or only of the gap, if the log could not carry the change. */
  lemma RowSaysAll(row: Row, ds: DatasetId, profile: Profile, a: Annotation)
    ensures a in RowAnnotations(row, ds, profile)
            <==> && a.dataset == ds
                 && if !(row.full && row.committed) then SaysOfGap(row, 0, a)
                    else
                      var skipped := |SkippedIn(row.added)| + |SkippedIn(row.removed)|;
                      || SaysOfOne("add", row.added, row, profile, a)
                      || SaysOfOne("remove", row.removed, row, profile, a)
                      || (skipped > 0 && SaysOfGap(row, skipped, a))
  {
    if Carried(row) {
      CountBlankIs(row.added);
      CountBlankIs(row.removed);
      CarriedInThree(row, ds, profile, a);
      EachSaysAll("add", row.added, row, ds, profile, a);
      EachSaysAll("remove", row.removed, row, ds, profile, a);
      SkippedSayAll(row, ds, CountBlank(row.added) + CountBlank(row.removed), a);
    } else {
      UncarriedSayAll(row, ds, profile, a);
    }
  }

  lemma CarriedInThree(row: Row, ds: DatasetId, profile: Profile, a: Annotation)
    requires Carried(row)
    ensures a in RowAnnotations(row, ds, profile)
            <==> || a in ChangesAnnotations("add", row.added, row, ds, profile)
                 || a in ChangesAnnotations("remove", row.removed, row, ds, profile)
                 || a in SkippedAnnotations(row, ds, CountBlank(row.added) + CountBlank(row.removed))
  {
    InThreeParts(ForChange("add", row, ds, profile), ForChange("remove", row, ds, profile), row, ds, a);
  }

  lemma InThreeParts(adds: Quad -> seq<Annotation>, removes: Quad -> seq<Annotation>, row: Row, ds: DatasetId,
                     a: Annotation)
    ensures a in CarriedAnnotations(adds, removes, row, ds)
            <==> || a in Annotated(adds, row.added) || a in Annotated(removes, row.removed)
                 || a in SkippedAnnotations(row, ds, CountBlank(row.added) + CountBlank(row.removed))
  {
    InOneOf(Annotated(adds, row.added), Annotated(removes, row.removed),
            SkippedAnnotations(row, ds, CountBlank(row.added) + CountBlank(row.removed)), a);
  }

  lemma EachSaysAll(op: string, quads: seq<Quad>, row: Row, ds: DatasetId, profile: Profile, a: Annotation)
    ensures a in ChangesAnnotations(op, quads, row, ds, profile)
            <==> a.dataset == ds && SaysOfOne(op, quads, row, profile, a)
  {
    AnnotatedHolds(ForChange(op, row, ds, profile), quads, a);
    forall q {
      ChangeSaysAll(op, q, row, ds, profile, a);
    }
  }

  lemma SkippedSayAll(row: Row, ds: DatasetId, skipped: nat, a: Annotation)
    ensures a in SkippedAnnotations(row, ds, skipped)
            <==> a.dataset == ds && skipped > 0 && SaysOfGap(row, skipped, a)
  {
    assert OTS + "ProvenanceGap" == "https://opentriplestore.org/ns#ProvenanceGap";
    if skipped > 0 {
      var said := SkippedAnnotations(row, ds, skipped);
      assert said[0] == GapAnnotations(row, ds)[0] && said[1] == GapAnnotations(row, ds)[1];
      assert said[2] == Annotation(GapName(row), SkippedBlankNodeStatements, Number(skipped), ds);
    }
  }

  lemma UncarriedSayAll(row: Row, ds: DatasetId, profile: Profile, a: Annotation)
    requires !Carried(row)
    ensures a in RowAnnotations(row, ds, profile) <==> a.dataset == ds && SaysOfGap(row, 0, a)
  {
    assert OTS + "ProvenanceGap" == "https://opentriplestore.org/ns#ProvenanceGap";
    var said := RowAnnotations(row, ds, profile);
    assert said[0] == GapAnnotations(row, ds)[0] && said[1] == GapAnnotations(row, ds)[1];
    if row.graph.Some? {
      assert said[2] == Annotation(GapName(row), InGraph, NameValue(Plain(row.graph.value)), ds);
    }
  }

  // ── Whose graphs are annotated ────────────────────────────────────────────

  lemma {:induction false} WithGraphsIs(owner: OwnerMap, ds: OptedIn, n: nat, g: string)
    requires n <= |ds.graphs|
    ensures g in ds.graphs[..n] && !("urn:ots:statement-provenance:" <= g) ==>
              g in WithGraphs(owner, ds, n) && WithGraphs(owner, ds, n)[g] == (ds.id, ds.profile)
    ensures g !in ds.graphs[..n] || "urn:ots:statement-provenance:" <= g ==>
              && (g in WithGraphs(owner, ds, n) <==> g in owner)
              && (g in owner ==> WithGraphs(owner, ds, n)[g] == owner[g])
  {
    if n > 0 {
      WithGraphsIs(owner, ds, n - 1, g);
      assert ds.graphs[..n] == ds.graphs[..n - 1] + [ds.graphs[n - 1]];
    }
  }

  /** The last dataset that a graph is registered with owns it, but no provenance graph. */
  lemma {:induction false} LastDatasetOwns(datasets: seq<OptedIn>, g: string)
    ensures g in Owners(datasets)
            <==> !("urn:ots:statement-provenance:" <= g) && exists ds :: ds in datasets && g in ds.graphs
    ensures forall i | 0 <= i < |datasets| && g in datasets[i].graphs && g in Owners(datasets)
                       && (forall j | i < j < |datasets| :: g !in datasets[j].graphs) ::
              Owners(datasets)[g] == (datasets[i].id, datasets[i].profile)
  {
    if datasets != [] {
      var before, last := datasets[..|datasets| - 1], datasets[|datasets| - 1];
      LastDatasetOwns(before, g);
      assert datasets == before + [last];
      WithGraphsIs(Owners(before), last, |last.graphs|, g);
      assert last.graphs[..|last.graphs|] == last.graphs;
      assert (exists ds :: ds in datasets && g in ds.graphs)
             <==> (exists ds :: ds in before && g in ds.graphs) || g in last.graphs;
    }
  }
}
