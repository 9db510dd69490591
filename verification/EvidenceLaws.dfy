/** What the scan of a file counts, in terms of the types and predicates its quads are written
    with, and how the verdict follows the evidence. */
module EvidenceLaws {
  import opened Rdf
  import opened Vocabularies
  import opened RoleLaws
  import opened KindDetector

  // ── What is counted ───────────────────────────────────────────────────────

  predicate TypesOntology(q: Triple) {
    Types(q, "http://www.w3.org/2002/07/owl#Ontology")
  }

  predicate TypesOwlClass(q: Triple) {
    Types(q, "http://www.w3.org/2002/07/owl#Class")
  }

  predicate TypesRdfsClass(q: Triple) {
    Types(q, "http://www.w3.org/2000/01/rdf-schema#Class")
  }

  predicate TypesScheme(q: Triple) {
    Types(q, "http://www.w3.org/2004/02/skos/core#ConceptScheme")
  }

  predicate TypesProperty(q: Triple) {
    || Types(q, "http://www.w3.org/2002/07/owl#ObjectProperty")
    || Types(q, "http://www.w3.org/2002/07/owl#DatatypeProperty")
    || Types(q, "http://www.w3.org/2002/07/owl#AnnotationProperty")
    || Types(q, "http://www.w3.org/1999/02/22-rdf-syntax-ns#Property")
  }

  predicate SaysConcept(q: Triple) {
    Types(q, "http://www.w3.org/2004/02/skos/core#Concept") || "http://www.w3.org/2004/02/skos/core#" <= q.pred
  }

  /** A type, by its IRI, that is none of the schema vocabularies'. */
  predicate TypesThing(q: Triple) {
    && TypesAtAll(q) && !SaysShape(q) && !SaysRule(q) && !TypesSchema(q) && !TypesConcept(q)
    && !Types(q, "http://www.w3.org/2002/07/owl#NamedIndividual")
  }

  /** How many quads say so. */
  function HowMany(quads: seq<Triple>, says: Triple -> bool): nat {
    |set i: nat | i < |quads| && says(quads[i])|
  }

  lemma HowManyGrows(quads: seq<Triple>, says: Triple -> bool)
    requires quads != []
    ensures HowMany(quads, says)
            == HowMany(quads[..|quads| - 1], says) + if says(quads[|quads| - 1]) then 1 else 0
  {
    var prefix, last: nat := quads[..|quads| - 1], |quads| - 1;
    var before := set i: nat | i < |prefix| && says(prefix[i]);
    var all := set i: nat | i < |quads| && says(quads[i]);
    assert forall i: nat | i < |prefix| :: prefix[i] == quads[i];
    assert all == before + if says(quads[last]) then {last} else {};
  }

  /** A count that adds up quad by quad is the number of quads that say so. */
  lemma {:induction false} CountIs(quads: seq<Triple>, count: Evidence -> nat, says: Triple -> bool)
    requires count(NO_EVIDENCE) == 0 && forall a, b :: count(Sum(a, b)) == count(a) + count(b)
    requires forall q :: count(QuadEvidence(q)) == if says(q) then 1 else 0
    ensures count(EvidenceOf(quads)) == HowMany(quads, says)
  {
    if quads != [] {
      CountIs(quads[..|quads| - 1], count, says);
      HowManyGrows(quads, says);
    }
  }

  lemma ClassesAreCounted(q: Triple)
    ensures QuadEvidence(q).owlOntology == if TypesOntology(q) then 1 else 0
    ensures QuadEvidence(q).owlClasses == if TypesOwlClass(q) then 1 else 0
  {
  }

  lemma RdfsClassesAreCounted(q: Triple)
    ensures QuadEvidence(q).rdfsClasses == if TypesRdfsClass(q) then 1 else 0
  {
  }

  lemma PropertiesAreCounted(q: Triple)
    ensures QuadEvidence(q).owlProperties == if TypesProperty(q) then 1 else 0
  {
  }

  lemma ShapesAreCounted(q: Triple)
    ensures QuadEvidence(q).shaclShapes == if SaysShape(q) then 1 else 0
  {
    NamespacesPartWays(q.pred);
    TermsPartWays(q);
    if TypesAtAll(q) {
      TypesPartWays(q.obj.node.iri);
    }
  }

  lemma RulesAreCounted(q: Triple)
    ensures QuadEvidence(q).entailmentRules == if SaysRule(q) then 1 else 0
  {
    NamespacesPartWays(q.pred);
    TermsPartWays(q);
    if TypesAtAll(q) {
      TypesPartWays(q.obj.node.iri);
    }
  }

  lemma SchemesAreCounted(q: Triple)
    ensures QuadEvidence(q).skosConceptSchemes == if TypesScheme(q) then 1 else 0
  {
  }

  lemma ConceptsAreCounted(q: Triple)
    ensures QuadEvidence(q).skosConcepts == if SaysConcept(q) then 1 else 0
  {
    NamespacesPartWays(q.pred);
    TermsPartWays(q);
  }

  lemma ThingsAreCounted(q: Triple)
    ensures QuadEvidence(q).instanceSubjects == if TypesThing(q) then 1 else 0
  {
    if TypesAtAll(q) {
      TypePredicate(q);
      TypesAre(q, q.obj.node.iri);
      ThingsAreOfNoSchema(q.obj.node.iri);
    }
  }

  lemma ThingsAreOfNoSchema(o: string)
    ensures TypeEvidence(o).instanceSubjects == if o in SCHEMA_TYPE_OBJECTS then 0 else 1
  {
  }

  /** The evidence is the number of quads that say so, kind by kind. */
  lemma EvidenceIsCounted(quads: seq<Triple>)
    ensures var ev := EvidenceOf(quads);
            && ev.owlOntology == HowMany(quads, TypesOntology)
            && ev.owlClasses == HowMany(quads, TypesOwlClass)
            && ev.rdfsClasses == HowMany(quads, TypesRdfsClass)
            && ev.owlProperties == HowMany(quads, TypesProperty)
            && ev.shaclShapes == HowMany(quads, SaysShape)
            && ev.entailmentRules == HowMany(quads, SaysRule)
            && ev.skosConceptSchemes == HowMany(quads, TypesScheme)
            && ev.skosConcepts == HowMany(quads, SaysConcept)
            && ev.instanceSubjects == HowMany(quads, TypesThing)
  {
    CountedClasses(quads);
    CountedShapesAndRules(quads);
    CountedConcepts(quads);
    forall q {
      ThingsAreCounted(q);
    }
    CountIs(quads, (ev: Evidence) => ev.instanceSubjects, TypesThing);
  }

  lemma CountedClasses(quads: seq<Triple>)
    ensures EvidenceOf(quads).owlOntology == HowMany(quads, TypesOntology)
    ensures EvidenceOf(quads).owlClasses == HowMany(quads, TypesOwlClass)
    ensures EvidenceOf(quads).rdfsClasses == HowMany(quads, TypesRdfsClass)
    ensures EvidenceOf(quads).owlProperties == HowMany(quads, TypesProperty)
  {
    forall q {
      ClassesAreCounted(q);
    }
    CountIs(quads, (ev: Evidence) => ev.owlOntology, TypesOntology);
    CountIs(quads, (ev: Evidence) => ev.owlClasses, TypesOwlClass);
    forall q {
      RdfsClassesAreCounted(q);
    }
    CountIs(quads, (ev: Evidence) => ev.rdfsClasses, TypesRdfsClass);
    forall q {
      PropertiesAreCounted(q);
    }
    CountIs(quads, (ev: Evidence) => ev.owlProperties, TypesProperty);
  }

  lemma CountedShapesAndRules(quads: seq<Triple>)
    ensures EvidenceOf(quads).shaclShapes == HowMany(quads, SaysShape)
    ensures EvidenceOf(quads).entailmentRules == HowMany(quads, SaysRule)
  {
    forall q {
      ShapesAreCounted(q);
    }
    CountIs(quads, (ev: Evidence) => ev.shaclShapes, SaysShape);
    forall q {
      RulesAreCounted(q);
    }
    CountIs(quads, (ev: Evidence) => ev.entailmentRules, SaysRule);
  }

  lemma CountedConcepts(quads: seq<Triple>)
    ensures EvidenceOf(quads).skosConceptSchemes == HowMany(quads, TypesScheme)
    ensures EvidenceOf(quads).skosConcepts == HowMany(quads, SaysConcept)
  {
    forall q {
      SchemesAreCounted(q);
    }
    CountIs(quads, (ev: Evidence) => ev.skosConceptSchemes, TypesScheme);
    forall q {
      ConceptsAreCounted(q);
    }
    CountIs(quads, (ev: Evidence) => ev.skosConcepts, SaysConcept);
  }

  // ── The verdict follows the evidence ──────────────────────────────────────

  /** A file is of instances exactly when these outnumber all the schema three to one. */
  lemma InstancesExactlyWhen(ev: Evidence)
    ensures Classify(ev).primary == Some(InstancesKind)
            <==> ev.instanceSubjects
                 > 3 * (ev.owlOntology + ev.owlClasses + ev.rdfsClasses + ev.owlProperties + ev.skosConceptSchemes
                        + ev.skosConcepts + ev.shaclShapes + ev.entailmentRules)
  {
  }

  /** It is of rules exactly when there are any and nothing outnumbers them. */
  lemma EntailmentExactlyWhen(ev: Evidence)
    ensures Classify(ev).primary == Some(EntailmentKind)
            <==> && ev.entailmentRules > 0
                 && ev.owlOntology + ev.owlClasses + ev.rdfsClasses <= ev.entailmentRules
                 && ev.owlProperties + ev.skosConceptSchemes + ev.skosConcepts <= ev.entailmentRules
                 && ev.shaclShapes <= ev.entailmentRules && ev.instanceSubjects <= ev.entailmentRules
  {
  }

  /** Of shapes, exactly when there are three to one of properties and of instances, no class,
      and less of rules than of shapes or of ontology headers. */
  lemma ShapesExactlyWhen(ev: Evidence)
    ensures Classify(ev).primary == Some(ShapesKind)
            <==> && ev.shaclShapes > 0 && ev.owlClasses + ev.rdfsClasses == 0
                 && ev.shaclShapes >= 3 * (ev.owlProperties + ev.skosConceptSchemes + ev.skosConcepts)
                 && ev.shaclShapes >= 3 * ev.instanceSubjects
                 && (ev.entailmentRules < ev.shaclShapes || ev.entailmentRules < ev.owlOntology)
  {
  }

  /** Any other file is undecided if instances outnumber classes, vocabulary and shapes each,
      else vocabulary if that outnumbers the classes, or the instances where there is no
      class, else a model; and undecided, too, with neither classes nor vocabulary. */
  lemma OtherVerdicts(ev: Evidence)
    requires Classify(ev).primary !in {Some(EntailmentKind), Some(ShapesKind), Some(InstancesKind)}
    ensures var classes := ev.owlOntology + ev.owlClasses + ev.rdfsClasses;
            var vocab := ev.owlProperties + ev.skosConceptSchemes + ev.skosConcepts;
            var things := ev.instanceSubjects;
            Classify(ev).primary
            == if classes + vocab == 0 || (things > classes && things > vocab && things > ev.shaclShapes) then None
               else if vocab > classes || (ev.owlClasses + ev.rdfsClasses == 0 && things < vocab) then
                   Some(VocabularyKind)
               else Some(DataModel)
  {
  }

  /** `more` is evidence for `kind` and for nothing else. */
  predicate OnlyFor(more: Evidence, kind: RegistryKind) {
    && more.owlOntology == 0
    && forall other | other != kind :: EvidenceFor(more, other) == 0
  }

  /** More evidence for the kind a verdict names never changes what it names. */
  lemma MoreOfTheSameKeepsVerdict(ev: Evidence, more: Evidence, kind: RegistryKind)
    requires Classify(ev).primary == Some(kind) && OnlyFor(more, kind)
    ensures Classify(Sum(ev, more)).primary == Some(kind)
  {
    assert kind != DataModel ==> EvidenceFor(more, DataModel) == 0;
    assert kind != VocabularyKind ==> EvidenceFor(more, VocabularyKind) == 0;
    assert kind != ShapesKind ==> EvidenceFor(more, ShapesKind) == 0;
    assert kind != EntailmentKind ==> EvidenceFor(more, EntailmentKind) == 0;
    assert kind != InstancesKind ==> EvidenceFor(more, InstancesKind) == 0;
    assert ScoresOf(Sum(ev, more)) == Raised(ScoresOf(ev), kind, EvidenceFor(more, kind));
    RaisedKeepsVerdict(ScoresOf(ev), kind, EvidenceFor(more, kind));
  }

  function Raised(s: Scores, kind: RegistryKind, n: nat): Scores {
    match kind
    case DataModel => s.(model := s.model + n, classes := s.classes + n)
    case VocabularyKind => s.(vocab := s.vocab + n)
    case ShapesKind => s.(shapes := s.shapes + n)
    case EntailmentKind => s.(entail := s.entail + n)
    case InstancesKind => s.(abox := s.abox + n)
  }

  lemma RaisedKeepsVerdict(s: Scores, kind: RegistryKind, n: nat)
    requires s.Verdict().primary == Some(kind)
    ensures Raised(s, kind, n).Verdict().primary == Some(kind)
  {
    match kind {
      case DataModel => MoreClasses(s, n);
      case VocabularyKind => MoreVocabulary(s, n);
      case _ => MoreOfTheRest(s, kind, n);
    }
  }

  lemma MoreClasses(s: Scores, n: nat)
    requires s.Verdict().primary == Some(DataModel)
    ensures s.(model := s.model + n, classes := s.classes + n).Verdict().primary == Some(DataModel)
  {
  }

  lemma MoreVocabulary(s: Scores, n: nat)
    requires s.Verdict().primary == Some(VocabularyKind)
    ensures s.(vocab := s.vocab + n).Verdict().primary == Some(VocabularyKind)
  {
  }

  lemma MoreOfTheRest(s: Scores, kind: RegistryKind, n: nat)
    requires kind == ShapesKind || kind == EntailmentKind || kind == InstancesKind
    requires s.Verdict().primary == Some(kind)
    ensures Raised(s, kind, n).Verdict().primary == Some(kind)
  {
  }

  /** A verdict names only a kind there is evidence for, an ontology header being some. */
  lemma VerdictIsBacked(ev: Evidence)
    ensures Classify(ev).primary.Some? ==>
              || EvidenceFor(ev, Classify(ev).primary.value) > 0
              || (Classify(ev).primary == Some(DataModel) && ev.owlOntology > 0)
  {
  }
}
