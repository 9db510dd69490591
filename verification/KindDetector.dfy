/** The file-level verdict: evidence tallied in one scan, then a heuristic over the tallies. */
module KindDetector {
  import opened Rdf
  import opened Vocabularies

  datatype RegistryKind = DataModel | VocabularyKind | ShapesKind | EntailmentKind | InstancesKind

  datatype Evidence = Evidence(
    owlOntology: nat,
    owlClasses: nat,
    owlProperties: nat,
    rdfsClasses: nat,
    shaclShapes: nat,
    skosConceptSchemes: nat,
    skosConcepts: nat,
    entailmentRules: nat,
    instanceSubjects: nat)
  {
    /** An ontology header counts, but is no class by itself. */
    function ClassScore(): nat {
      owlOntology + owlClasses + rdfsClasses
    }

    function RealClasses(): nat {
      owlClasses + rdfsClasses
    }

    function VocabularyScore(): nat {
      owlProperties + skosConceptSchemes + skosConcepts
    }
  }

  const NO_EVIDENCE := Evidence(0, 0, 0, 0, 0, 0, 0, 0, 0)

  datatype Detected = Detected(primary: Option<RegistryKind>, mixed: bool)

  function Sum(a: Evidence, b: Evidence): Evidence {
    Evidence(a.owlOntology + b.owlOntology, a.owlClasses + b.owlClasses, a.owlProperties + b.owlProperties,
             a.rdfsClasses + b.rdfsClasses, a.shaclShapes + b.shaclShapes,
             a.skosConceptSchemes + b.skosConceptSchemes, a.skosConcepts + b.skosConcepts,
             a.entailmentRules + b.entailmentRules, a.instanceSubjects + b.instanceSubjects)
  }

  function TypeEvidence(o: string): Evidence {
    if o == OWL_ONTOLOGY then NO_EVIDENCE.(owlOntology := 1)
    else if o == OWL_CLASS then NO_EVIDENCE.(owlClasses := 1)
    else if o == OWL_OBJECT_PROPERTY || o == OWL_DATATYPE_PROPERTY || o == OWL_ANNOTATION_PROPERTY
        || o == RDF_PROPERTY then
      NO_EVIDENCE.(owlProperties := 1)
    else if o == RDFS_CLASS then NO_EVIDENCE.(rdfsClasses := 1)
    else if o == SH_NODE_SHAPE || o == SH_PROPERTY_SHAPE then NO_EVIDENCE.(shaclShapes := 1)
    else if o == SKOS_CONCEPT_SCHEME then NO_EVIDENCE.(skosConceptSchemes := 1)
    else if o == SKOS_CONCEPT then NO_EVIDENCE.(skosConcepts := 1)
    else if o == SWRL_IMP then NO_EVIDENCE.(entailmentRules := 1)
    else if o !in SCHEMA_TYPE_OBJECTS then NO_EVIDENCE.(instanceSubjects := 1)
    else NO_EVIDENCE
  }

  /** What one quad adds to the evidence. */
  function QuadEvidence(q: Triple): Evidence {
    var p := q.pred;
    if p == RDF_TYPE then
      if q.obj.Resource? && q.obj.node.Iri? then TypeEvidence(q.obj.node.iri) else NO_EVIDENCE
    else if p == SH_TARGET_CLASS || SH_NS <= p then NO_EVIDENCE.(shaclShapes := 1)
    else if p == SPIN_RULE || SP_NS <= p then NO_EVIDENCE.(entailmentRules := 1)
    else if SKOS_NS <= p then NO_EVIDENCE.(skosConcepts := 1)
    else NO_EVIDENCE
  }

  /** What the quads add up to, quad by quad. */
  function Total(evidence: Triple -> Evidence, quads: seq<Triple>): Evidence {
    if quads == [] then NO_EVIDENCE else Sum(Total(evidence, quads[..|quads| - 1]), evidence(quads[|quads| - 1]))
  }

  function EvidenceOf(quads: seq<Triple>): Evidence {
    Total(QuadEvidence, quads)
  }

  /** The scores of the layers; `classes` counts the classes without headers. */
  datatype Scores = Scores(model: nat, classes: nat, vocab: nat, shapes: nat, entail: nat, abox: nat) {
    function Schema(): nat {
      model + shapes + vocab + entail
    }

    predicate EntailmentWins() {
      entail > 0 && entail >= model && entail >= shapes && entail >= vocab && entail >= abox
    }

    predicate ShapesWin() {
      shapes > 0 && classes == 0 && shapes >= vocab * 3 && shapes >= abox * 3
    }

    predicate ModelWins() {
      (model > 0 || vocab > 0) && model >= vocab && (abox <= model || abox <= shapes)
    }

    predicate VocabularyWins() {
      (model > 0 || vocab > 0) && model < vocab && (abox <= vocab || abox <= shapes)
    }

    function Verdict(): Detected {
      var mixed := (model > 0 && vocab > 0) || shapes > 0 || entail > 0 || abox > 0;
      if Schema() == 0 && abox == 0 then Detected(None, false)
      else if EntailmentWins() then Detected(Some(EntailmentKind), model + shapes + vocab + abox > 0)
      else if ShapesWin() then Detected(Some(ShapesKind), vocab > 0 || entail > 0 || abox > 0)
      else if abox > Schema() * 3 then Detected(Some(InstancesKind), Schema() > 0)
      else if vocab > 0 && classes == 0 && abox < vocab then
        Detected(Some(VocabularyKind), shapes > 0 || entail > 0 || abox > 0)
      else if ModelWins() then Detected(Some(DataModel), mixed)
      else if VocabularyWins() then Detected(Some(VocabularyKind), mixed)
      else Detected(None, true)
    }

    function ScaledBy(k: nat): Scores {
      Scores(Times(k, model), Times(k, classes), Times(k, vocab),
             Times(k, shapes), Times(k, entail), Times(k, abox))
    }
  }

  function ScoresOf(ev: Evidence): Scores {
    Scores(ev.ClassScore(), ev.RealClasses(), ev.VocabularyScore(), ev.shaclShapes, ev.entailmentRules,
           ev.instanceSubjects)
  }

  function Classify(ev: Evidence): Detected {
    ScoresOf(ev).Verdict()
  }

  /** Scan the quads and classify what they add up to. */
  method Detect(quads: seq<Triple>) returns (d: Detected, ev: Evidence)
    ensures ev == EvidenceOf(quads) && d == Classify(ev)
  {
    ev := Scan(QuadEvidence, quads);
    d := Classify(ev);
  }

  method Scan(evidence: Triple -> Evidence, quads: seq<Triple>) returns (ev: Evidence)
    ensures ev == Total(evidence, quads)
  {
    ev := NO_EVIDENCE;
    for k := 0 to |quads|
      invariant ev == Total(evidence, quads[..k])
    {
      assert quads[..k + 1][..k] == quads[..k];
      ev := Sum(ev, evidence(quads[k]));
    }
    assert quads[..|quads|] == quads;
  }

  // ── Scale invariance ──────────────────────────────────────────────────────

  function Repeat(quads: seq<Triple>, k: nat): seq<Triple> {
    if k == 0 then [] else Repeat(quads, k - 1) + quads
  }

  lemma RepeatedOnce(quads: seq<Triple>)
    ensures Repeat(quads, 1) == quads
  {
    assert Repeat(quads, 0) == [];
  }

  /** `k` times `a`, as repeating adds it up. */
  function Times(k: nat, a: nat): nat {
    if k == 0 then 0 else Times(k - 1, a) + a
  }

  lemma SumAssociative(a: Evidence, b: Evidence, c: Evidence)
    ensures Sum(Sum(a, b), c) == Sum(a, Sum(b, c))
  {
  }

  lemma SumWithNothing(a: Evidence)
    ensures Sum(a, NO_EVIDENCE) == a
  {
  }

  lemma TotalStep(evidence: Triple -> Evidence, quads: seq<Triple>, q: Triple)
    ensures Total(evidence, quads + [q]) == Sum(Total(evidence, quads), evidence(q))
  {
    assert (quads + [q])[..|quads|] == quads;
  }

  lemma {:induction false} TotalAdds(evidence: Triple -> Evidence, a: seq<Triple>, b: seq<Triple>)
    ensures Total(evidence, a + b) == Sum(Total(evidence, a), Total(evidence, b))
  {
    if b == [] {
      assert a + b == a;
      SumWithNothing(Total(evidence, a));
    } else {
      var prefix, last := b[..|b| - 1], b[|b| - 1];
      TotalAdds(evidence, a, prefix);
      assert b == prefix + [last] && a + b == a + prefix + [last];
      TotalStep(evidence, prefix, last);
      TotalStep(evidence, a + prefix, last);
      SumAssociative(Total(evidence, a), Total(evidence, prefix), evidence(last));
    }
  }

  /** Every comparison the verdict makes comes out the same. */
  predicate SameOrder(s: Scores, t: Scores) {
    && (s.model > 0 <==> t.model > 0)
    && (s.classes > 0 <==> t.classes > 0)
    && (s.vocab > 0 <==> t.vocab > 0)
    && (s.shapes > 0 <==> t.shapes > 0)
    && (s.entail > 0 <==> t.entail > 0)
    && (s.abox > 0 <==> t.abox > 0)
    && (s.entail >= s.model <==> t.entail >= t.model)
    && (s.entail >= s.shapes <==> t.entail >= t.shapes)
    && (s.entail >= s.vocab <==> t.entail >= t.vocab)
    && (s.entail >= s.abox <==> t.entail >= t.abox)
    && (s.shapes >= s.vocab * 3 <==> t.shapes >= t.vocab * 3)
    && (s.shapes >= s.abox * 3 <==> t.shapes >= t.abox * 3)
    && (s.Schema() * 3 >= s.abox <==> t.Schema() * 3 >= t.abox)
    && (s.abox >= s.vocab <==> t.abox >= t.vocab)
    && (s.model >= s.vocab <==> t.model >= t.vocab)
    && (s.model >= s.abox <==> t.model >= t.abox)
    && (s.vocab >= s.abox <==> t.vocab >= t.abox)
    && (s.shapes >= s.abox <==> t.shapes >= t.abox)
  }

  lemma VerdictComparesScores(s: Scores, t: Scores)
    requires SameOrder(s, t)
    ensures s.Verdict() == t.Verdict()
  {
    assert s.EntailmentWins() <==> t.EntailmentWins();
    assert s.ShapesWin() <==> t.ShapesWin();
    assert s.ModelWins() <==> t.ModelWins();
    assert s.VocabularyWins() <==> t.VocabularyWins();
  }

  lemma {:induction false} TimesKeepsOrder(k: nat, a: nat, b: nat)
    requires k >= 1
    ensures Times(k, a) >= Times(k, b) <==> a >= b
  {
    if k > 1 {
      TimesKeepsOrder(k - 1, a, b);
    }
  }

  lemma {:induction false} TimesDistributes(k: nat, a: nat, b: nat, c: nat, d: nat)
    ensures Times(k, a + b + c + d) == Times(k, a) + Times(k, b) + Times(k, c) + Times(k, d)
    ensures Times(k, (a + b + c + d) * 3) == (Times(k, a) + Times(k, b) + Times(k, c) + Times(k, d)) * 3
  {
    if k > 0 {
      TimesDistributes(k - 1, a, b, c, d);
    }
  }

  lemma PositiveScores(s: Scores, k: nat)
    requires k >= 1
    ensures s.model > 0 <==> s.ScaledBy(k).model > 0
    ensures s.classes > 0 <==> s.ScaledBy(k).classes > 0
    ensures s.vocab > 0 <==> s.ScaledBy(k).vocab > 0
    ensures s.shapes > 0 <==> s.ScaledBy(k).shapes > 0
    ensures s.entail > 0 <==> s.ScaledBy(k).entail > 0
    ensures s.abox > 0 <==> s.ScaledBy(k).abox > 0
  {
    TimesDistributes(k, 0, 0, 0, 0);
    TimesKeepsOrder(k, 0, s.model);
    TimesKeepsOrder(k, 0, s.classes);
    TimesKeepsOrder(k, 0, s.vocab);
    TimesKeepsOrder(k, 0, s.shapes);
    TimesKeepsOrder(k, 0, s.entail);
    TimesKeepsOrder(k, 0, s.abox);
  }

  lemma TripledScore(a: nat, b: nat, k: nat)
    requires k >= 1
    ensures a >= b * 3 <==> Times(k, a) >= Times(k, b) * 3
  {
    TimesDistributes(k, 0, 0, 0, 0);
    TimesDistributes(k, b, 0, 0, 0);
    TimesKeepsOrder(k, a, b * 3);
  }

  lemma TripledSchema(s: Scores, k: nat)
    requires k >= 1
    ensures s.Schema() * 3 >= s.abox <==> s.ScaledBy(k).Schema() * 3 >= s.ScaledBy(k).abox
  {
    TimesDistributes(k, s.model, s.shapes, s.vocab, s.entail);
    TimesKeepsOrder(k, (s.model + s.shapes + s.vocab + s.entail) * 3, s.abox);
  }

  lemma ScaledScoresCompare(s: Scores, k: nat)
    requires k >= 1
    ensures SameOrder(s, s.ScaledBy(k))
  {
    PositiveScores(s, k);
    TripledSchema(s, k);
    TripledScore(s.shapes, s.vocab, k);
    TripledScore(s.shapes, s.abox, k);
    TimesKeepsOrder(k, s.entail, s.model);
    TimesKeepsOrder(k, s.entail, s.shapes);
    TimesKeepsOrder(k, s.entail, s.vocab);
    TimesKeepsOrder(k, s.entail, s.abox);
    TimesKeepsOrder(k, s.abox, s.vocab);
    TimesKeepsOrder(k, s.model, s.vocab);
    TimesKeepsOrder(k, s.model, s.abox);
    TimesKeepsOrder(k, s.vocab, s.abox);
    TimesKeepsOrder(k, s.shapes, s.abox);
  }

  function Plus(s: Scores, t: Scores): Scores {
    Scores(s.model + t.model, s.classes + t.classes, s.vocab + t.vocab, s.shapes + t.shapes, s.entail + t.entail,
           s.abox + t.abox)
  }

  lemma ScoresAdd(a: Evidence, b: Evidence)
    ensures ScoresOf(Sum(a, b)) == Plus(ScoresOf(a), ScoresOf(b))
  {
  }

  lemma ScaledStep(s: Scores, k: nat)
    requires k > 0
    ensures Plus(s.ScaledBy(k - 1), s) == s.ScaledBy(k)
  {
  }

  /** Evidence for one more round of the same quads adds their scores once more. */
  lemma RepeatedScores(quads: seq<Triple>, k: nat)
    requires k > 0
    ensures ScoresOf(EvidenceOf(Repeat(quads, k)))
            == Plus(ScoresOf(EvidenceOf(Repeat(quads, k - 1))), ScoresOf(EvidenceOf(quads)))
  {
    TotalAdds(QuadEvidence, Repeat(quads, k - 1), quads);
    ScoresAdd(EvidenceOf(Repeat(quads, k - 1)), EvidenceOf(quads));
  }

  lemma ScaledByOne(s: Scores)
    ensures s.ScaledBy(1) == s
  {
    assert forall a: nat :: Times(1, a) == Times(0, a) + a == a;
  }

  lemma {:induction false} ScoresScale(quads: seq<Triple>, k: nat)
    requires k >= 1
    ensures ScoresOf(EvidenceOf(Repeat(quads, k))) == ScoresOf(EvidenceOf(quads)).ScaledBy(k)
  {
    var one := ScoresOf(EvidenceOf(quads));
    if k == 1 {
      RepeatedOnce(quads);
      ScaledByOne(one);
    } else {
      ScoresScale(quads, k - 1);
      RepeatedScores(quads, k);
      ScaledStep(one, k);
    }
  }

  /** Repeating the input any number of times gives the same verdict. */
  lemma DetectionIsScaleInvariant(quads: seq<Triple>, k: nat)
    requires k >= 1
    ensures Classify(EvidenceOf(Repeat(quads, k))) == Classify(EvidenceOf(quads))
  {
    var scores := ScoresOf(EvidenceOf(quads));
    ScoresScale(quads, k);
    ScaledScoresCompare(scores, k);
    VerdictComparesScores(scores, scores.ScaledBy(k));
  }

  // ── What an unmixed verdict means ─────────────────────────────────────────

  /** The evidence for one kind alone. */
  function EvidenceFor(ev: Evidence, kind: RegistryKind): nat {
    match kind
    case DataModel => ev.RealClasses()
    case VocabularyKind => ev.VocabularyScore()
    case ShapesKind => ev.shaclShapes
    case EntailmentKind => ev.entailmentRules
    case InstancesKind => ev.instanceSubjects
  }

  /** At most one of the scores is positive. */
  predicate AtMostOne(classes: nat, vocab: nat, shapes: nat, entail: nat, abox: nat) {
    && (classes > 0 ==> vocab == shapes == entail == abox == 0)
    && (vocab > 0 ==> shapes == entail == abox == 0)
    && (shapes > 0 ==> entail == abox == 0)
    && (entail > 0 ==> abox == 0)
  }

  /** The kind of evidence there is, given only one. */
  function OnlyKind(header: nat, classes: nat, vocab: nat, shapes: nat, entail: nat, abox: nat): Option<RegistryKind> {
    if entail > 0 then Some(EntailmentKind)
    else if shapes > 0 then Some(ShapesKind)
    else if abox > 0 then Some(InstancesKind)
    else if vocab > 0 then Some(VocabularyKind)
    else if header + classes > 0 then Some(DataModel)
    else None
  }

  lemma UnmixedScores(header: nat, classes: nat, vocab: nat, shapes: nat, entail: nat, abox: nat)
    ensures var d := Scores(header + classes, classes, vocab, shapes, entail, abox).Verdict();
            && (!d.mixed <==> AtMostOne(classes, vocab, shapes, entail, abox) && (header > 0 ==> entail == abox == 0))
            && (!d.mixed ==> d.primary == OnlyKind(header, classes, vocab, shapes, entail, abox))
  {
  }

  /** A verdict is unmixed exactly when all evidence is for at most one kind, an ontology
      header passing only beside a model, a vocabulary or shapes. */
  lemma UnmixedMeansOneKind(ev: Evidence)
    ensures !Classify(ev).mixed
            <==> (forall a, b | a != b :: EvidenceFor(ev, a) == 0 || EvidenceFor(ev, b) == 0)
                 && (ev.owlOntology > 0 ==> ev.entailmentRules == 0 && ev.instanceSubjects == 0)
  {
    var m, v, s, e, i := EvidenceFor(ev, DataModel), EvidenceFor(ev, VocabularyKind), EvidenceFor(ev, ShapesKind),
        EvidenceFor(ev, EntailmentKind), EvidenceFor(ev, InstancesKind);
    UnmixedScores(ev.owlOntology, m, v, s, e, i);
  }

  /** And then that kind is the verdict. */
  lemma UnmixedVerdictIsTheKind(ev: Evidence)
    ensures !Classify(ev).mixed ==>
              Classify(ev).primary == OnlyKind(ev.owlOntology, ev.RealClasses(), ev.VocabularyScore(), ev.shaclShapes,
                                               ev.entailmentRules, ev.instanceSubjects)
  {
    UnmixedScores(ev.owlOntology, ev.RealClasses(), ev.VocabularyScore(), ev.shaclShapes, ev.entailmentRules,
                  ev.instanceSubjects);
  }
}
