/** The role of a quad law by law, in terms of the types and predicates that the quads of its
    subject's tree are written with. */
module RoleLaws {
  import opened Rdf
  import opened Vocabularies
  import opened SubjectTrees

  // ── What a quad says ──────────────────────────────────────────────────────

  /** `q` gives its subject the type `iri`. */
  predicate Types(q: Triple, iri: string) {
    q.pred == "http://www.w3.org/1999/02/22-rdf-syntax-ns#type" && q.obj == Resource(Iri(iri))
  }

  predicate SaysShape(q: Triple) {
    || Types(q, "http://www.w3.org/ns/shacl#NodeShape")
    || Types(q, "http://www.w3.org/ns/shacl#PropertyShape")
    || "http://www.w3.org/ns/shacl#" <= q.pred
  }

  predicate SaysRule(q: Triple) {
    || Types(q, "http://www.w3.org/2003/11/swrl#Imp")
    || q.pred == "http://spinrdf.org/spin#rule"
    || "http://spinrdf.org/sp#" <= q.pred
  }

  predicate TypesSchema(q: Triple) {
    || Types(q, "http://www.w3.org/2002/07/owl#Ontology")
    || Types(q, "http://www.w3.org/2002/07/owl#Class")
    || Types(q, "http://www.w3.org/2002/07/owl#ObjectProperty")
    || Types(q, "http://www.w3.org/2002/07/owl#DatatypeProperty")
    || Types(q, "http://www.w3.org/2002/07/owl#AnnotationProperty")
    || Types(q, "http://www.w3.org/1999/02/22-rdf-syntax-ns#Property")
    || Types(q, "http://www.w3.org/2000/01/rdf-schema#Class")
    || Types(q, "http://www.w3.org/2002/07/owl#AllDifferent")
    || Types(q, "http://www.w3.org/2002/07/owl#Restriction")
    || Types(q, "http://www.w3.org/2002/07/owl#FunctionalProperty")
    || Types(q, "http://www.w3.org/2002/07/owl#TransitiveProperty")
    || Types(q, "http://www.w3.org/2002/07/owl#SymmetricProperty")
  }

  predicate TypesCatalog(q: Triple) {
    || Types(q, "http://www.w3.org/ns/dcat#Catalog")
    || Types(q, "http://www.w3.org/ns/dcat#Dataset")
    || Types(q, "http://www.w3.org/ns/dcat#Distribution")
    || Types(q, "http://www.w3.org/ns/dcat#DataService")
    || Types(q, "http://www.w3.org/ns/dcat#CatalogRecord")
    || Types(q, "http://rdfs.org/ns/void#Dataset")
    || Types(q, "http://rdfs.org/ns/void#Linkset")
  }

  predicate TypesProvenance(q: Triple) {
    || Types(q, "http://www.w3.org/ns/prov#Activity")
    || Types(q, "http://www.w3.org/ns/prov#Entity")
    || Types(q, "http://www.w3.org/ns/prov#Agent")
    || Types(q, "http://www.w3.org/ns/prov#Person")
    || Types(q, "http://www.w3.org/ns/prov#Organization")
    || Types(q, "http://www.w3.org/ns/prov#SoftwareAgent")
    || Types(q, "http://www.w3.org/ns/prov#Bundle")
    || Types(q, "http://www.w3.org/ns/prov#Collection")
  }

  predicate TypesCollection(q: Triple) {
    || Types(q, "http://www.w3.org/2004/02/skos/core#Collection")
    || Types(q, "http://www.w3.org/2004/02/skos/core#OrderedCollection")
  }

  predicate TypesConcept(q: Triple) {
    || Types(q, "http://www.w3.org/2004/02/skos/core#ConceptScheme")
    || Types(q, "http://www.w3.org/2004/02/skos/core#Concept")
  }

  /** `q` gives its subject some type, by its IRI. */
  predicate TypesAtAll(q: Triple) {
    q.pred == "http://www.w3.org/1999/02/22-rdf-syntax-ns#type" && q.obj.Resource? && q.obj.node.Iri?
  }

  predicate Links(q: Triple) {
    || q.pred == "http://www.w3.org/2002/07/owl#sameAs"
    || q.pred == "http://www.w3.org/2004/02/skos/core#exactMatch"
    || q.pred == "http://www.w3.org/2004/02/skos/core#closeMatch"
    || q.pred == "http://www.w3.org/2004/02/skos/core#broadMatch"
    || q.pred == "http://www.w3.org/2004/02/skos/core#narrowMatch"
    || q.pred == "http://www.w3.org/2004/02/skos/core#relatedMatch"
    || q.pred == "http://www.w3.org/2004/02/skos/core#mappingRelation"
  }

  predicate ListsMembers(q: Triple) {
    || q.pred == "http://www.w3.org/2004/02/skos/core#member"
    || q.pred == "http://www.w3.org/2004/02/skos/core#memberList"
  }

  predicate UsesSkos(q: Triple) {
    "http://www.w3.org/2004/02/skos/core#" <= q.pred && !Links(q) && !ListsMembers(q)
  }

  predicate UsesProv(q: Triple) {
    "http://www.w3.org/ns/prov#" <= q.pred
  }

  predicate UsesSchema(q: Triple) {
    && ("http://www.w3.org/2002/07/owl#" <= q.pred || "http://www.w3.org/2000/01/rdf-schema#" <= q.pred)
    && !Links(q)
  }

  // ── Signals are what quads say ────────────────────────────────────────────

  /** The namespaces part ways by their 22nd character. */
  lemma NamespacesPartWays(p: string)
    ensures RDF_TYPE <= p ==> |p| > 21 && p[21] == '9'
    ensures SH_NS <= p ==> |p| > 21 && p[21] == 's'
    ensures SP_NS <= p ==> |p| > 21 && p[21] == '#'
    ensures SPIN_RULE <= p ==> |p| > 21 && p[21] == 'i'
    ensures SKOS_NS <= p ==> |p| > 21 && p[21] == '4'
    ensures PROV_NS <= p ==> |p| > 21 && p[21] == 'p'
    ensures OWL_NS <= p ==> |p| > 21 && p[21] == '2'
    ensures RDFS_NS <= p ==> |p| > 21 && p[21] == '0'
  {
  }

  /** So do the terms that predicates are compared with. */
  lemma TermsPartWays(q: Triple)
    ensures q.pred == RDF_TYPE ==> |q.pred| > 21 && q.pred[21] == '9'
    ensures q.pred == SPIN_RULE ==> |q.pred| > 21 && q.pred[21] == 'i'
    ensures q.pred == SH_TARGET_CLASS ==> SH_NS <= q.pred
    ensures Links(q) ==> |q.pred| > 21 && (q.pred[21] == '2' || q.pred[21] == '4') && !ListsMembers(q)
    ensures ListsMembers(q) ==> |q.pred| > 21 && q.pred[21] == '4'
    ensures Links(q) <==> q.pred in LINK_PREDICATES
  {
  }

  lemma PredicateSignals(q: Triple)
    requires q.pred != RDF_TYPE
    ensures SignalOf(q) == ShapesSignal <==> SH_NS <= q.pred
    ensures SignalOf(q) == EntailmentSignal <==> q.pred == SPIN_RULE || SP_NS <= q.pred
    ensures SignalOf(q) == LinkPred <==> Links(q)
    ensures SignalOf(q) == ValuesPred <==> ListsMembers(q)
    ensures SignalOf(q) == VocabPred <==> UsesSkos(q)
    ensures SignalOf(q) == ProvPred <==> UsesProv(q)
    ensures SignalOf(q) == ModelPred <==> UsesSchema(q)
    ensures SignalOf(q) !in {ModelType, CatalogType, ProvType, ValuesType, VocabType, InstanceType}
  {
    NamespacesPartWays(q.pred);
    TermsPartWays(q);
  }

  lemma TypePredicate(q: Triple)
    requires q.pred == RDF_TYPE
    ensures !(SH_NS <= q.pred) && !(SP_NS <= q.pred) && q.pred != SPIN_RULE && !Links(q) && !ListsMembers(q)
    ensures !UsesSkos(q) && !UsesProv(q) && !UsesSchema(q)
  {
    NamespacesPartWays(q.pred);
    TermsPartWays(q);
  }

  /** Types part ways by the 22nd character too, but for the OWL ones. */
  lemma TypesPartWays(o: string)
    ensures o in {SH_NODE_SHAPE, SH_PROPERTY_SHAPE} ==> |o| > 21 && o[21] == 's'
    ensures o == SWRL_IMP ==> |o| > 21 && o[21] == '3'
    ensures o in PROV_TYPES ==> |o| > 21 && o[21] == 'p'
    ensures o in CATALOG_TYPES ==> |o| > 21 && (o[21] == 'd' || o[21] == 'i')
    ensures o == OWL_NAMED_INDIVIDUAL ==> |o| > 30 && o[21] == '2' && o[30] == 'N'
  {
  }

  lemma SkosTypesPartWays(o: string)
    ensures o in {SKOS_CONCEPT, SKOS_CONCEPT_SCHEME, SKOS_COLLECTION, SKOS_ORDERED_COLLECTION} ==>
              |o| > 21 && o[21] == '4'
    ensures o in {SKOS_CONCEPT, SKOS_CONCEPT_SCHEME} ==> o !in {SKOS_COLLECTION, SKOS_ORDERED_COLLECTION}
  {
  }

  lemma SchemaTypesPartWays(q: Triple, o: string)
    requires q.pred == RDF_TYPE && q.obj == Resource(Iri(o))
    ensures TypesSchema(q) ==> |o| > 30 && (o[21] == '2' || o[21] == '9' || o[21] == '0')
  {
  }

  lemma OwlTypesPartWays(q: Triple, o: string)
    requires q.pred == RDF_TYPE && q.obj == Resource(Iri(o))
    ensures TypesSchema(q) ==> o != OWL_NAMED_INDIVIDUAL
  {
  }

  lemma TypesAre(q: Triple, o: string)
    requires q.pred == RDF_TYPE && q.obj == Resource(Iri(o))
    ensures TypesCatalog(q) <==> o in CATALOG_TYPES
    ensures TypesProvenance(q) <==> o in PROV_TYPES
    ensures TypesSchema(q) || o in {SH_NODE_SHAPE, SH_PROPERTY_SHAPE, SKOS_CONCEPT_SCHEME, SKOS_CONCEPT, SWRL_IMP,
                                    OWL_NAMED_INDIVIDUAL}
            <==> o in SCHEMA_TYPE_OBJECTS
  {
  }

  /** The types of schema vocabularies that are spoken for otherwise. */
  const SPOKEN_FOR: set<string> := {
    SH_NODE_SHAPE, SH_PROPERTY_SHAPE, SKOS_CONCEPT_SCHEME, SKOS_CONCEPT, SWRL_IMP, OWL_NAMED_INDIVIDUAL
  }

  lemma SchemaTypesAre(q: Triple, o: string)
    requires q.pred == RDF_TYPE && q.obj == Resource(Iri(o))
    ensures TypesSchema(q) <==> o in SCHEMA_TYPE_OBJECTS && o !in SPOKEN_FOR
  {
    TypesPartWays(o);
    SkosTypesPartWays(o);
    SchemaTypesPartWays(q, o);
    OwlTypesPartWays(q, o);
    TypesAre(q, o);
  }

  lemma SchemaTypeSignals(q: Triple, o: string)
    requires q.pred == RDF_TYPE && q.obj == Resource(Iri(o))
    ensures SignalOf(q) == ModelType <==> TypesSchema(q)
  {
    SchemaTypesAre(q, o);
    if TypesSchema(q) {
      TypesPartWays(o);
      SkosTypesPartWays(o);
      SchemaTypesPartWays(q, o);
      OwlTypesPartWays(q, o);
    }
  }

  lemma ShapeAndRuleSignals(q: Triple, o: string)
    requires q.pred == RDF_TYPE && q.obj == Resource(Iri(o))
    ensures SignalOf(q) == ShapesSignal <==> SaysShape(q)
    ensures SignalOf(q) == EntailmentSignal <==> SaysRule(q)
  {
    TypePredicate(q);
    TypesPartWays(o);
  }

  lemma CatalogTypeOf(o: string)
    ensures TypeSignal(o) == CatalogType <==> o in CATALOG_TYPES
  {
    TypesPartWays(o);
    SkosTypesPartWays(o);
  }

  lemma ProvTypeOf(o: string)
    ensures TypeSignal(o) == ProvType <==> o in PROV_TYPES
  {
    TypesPartWays(o);
    SkosTypesPartWays(o);
  }

  lemma RecordTypeSignals(q: Triple, o: string)
    requires q.pred == RDF_TYPE && q.obj == Resource(Iri(o))
    ensures SignalOf(q) == CatalogType <==> TypesCatalog(q)
    ensures SignalOf(q) == ProvType <==> TypesProvenance(q)
  {
    CatalogTypeOf(o);
    ProvTypeOf(o);
    TypesAre(q, o);
  }

  lemma SkosTypeSignals(q: Triple, o: string)
    requires q.pred == RDF_TYPE && q.obj == Resource(Iri(o))
    ensures SignalOf(q) == ValuesType <==> TypesCollection(q)
    ensures SignalOf(q) == VocabType <==> TypesConcept(q)
    ensures SignalOf(q) !in {ModelPred, VocabPred, LinkPred, ProvPred, ValuesPred, Neutral}
  {
    TypesPartWays(o);
    SkosTypesPartWays(o);
  }

  /** `q` types its subject as instance data: with an IRI that no other kind claims. */
  predicate TypesInstance(q: Triple) {
    && TypesAtAll(q) && !SaysShape(q) && !SaysRule(q)
    && !TypesSchema(q) && !TypesCatalog(q) && !TypesProvenance(q) && !TypesCollection(q) && !TypesConcept(q)
  }

  lemma NothingTyped(q: Triple)
    requires q.pred != RDF_TYPE
    ensures SaysShape(q) <==> SH_NS <= q.pred
    ensures SaysRule(q) <==> q.pred == SPIN_RULE || SP_NS <= q.pred
    ensures !TypesConcept(q) && !TypesCollection(q) && !TypesInstance(q)
    ensures !TypesSchema(q) && !TypesCatalog(q) && !TypesProvenance(q)
  {
  }

  lemma NoTypeNamed(q: Triple)
    requires q.pred == RDF_TYPE && !TypesAtAll(q)
    ensures !SaysShape(q) && !SaysRule(q) && !TypesConcept(q) && !TypesCollection(q) && !TypesInstance(q)
    ensures !TypesSchema(q) && !TypesCatalog(q) && !TypesProvenance(q)
  {
    TypePredicate(q);
    SchemaTypesType(q);
    OtherTypesType(q);
  }

  /** What each signal is given for. */
  lemma SignalsSay(q: Triple)
    ensures SignalOf(q) == ShapesSignal <==> SaysShape(q)
    ensures SignalOf(q) == EntailmentSignal <==> SaysRule(q)
    ensures SignalOf(q) == ModelType <==> TypesSchema(q)
    ensures SignalOf(q) == CatalogType <==> TypesCatalog(q)
    ensures SignalOf(q) == ProvType <==> TypesProvenance(q)
    ensures SignalOf(q) == ValuesType <==> TypesCollection(q)
    ensures SignalOf(q) == VocabType <==> TypesConcept(q)
    ensures SignalOf(q) == InstanceType <==> TypesInstance(q)
    ensures SignalOf(q) == LinkPred <==> Links(q)
    ensures SignalOf(q) == ProvPred <==> UsesProv(q)
    ensures SignalOf(q) == ValuesPred <==> ListsMembers(q)
    ensures SignalOf(q) == VocabPred <==> UsesSkos(q)
    ensures SignalOf(q) == ModelPred <==> UsesSchema(q)
  {
    if q.pred != RDF_TYPE {
      PredicateSignals(q);
      NothingTyped(q);
    } else {
      TypePredicate(q);
      if TypesAtAll(q) {
        ShapeAndRuleSignals(q, q.obj.node.iri);
        SchemaTypeSignals(q, q.obj.node.iri);
        RecordTypeSignals(q, q.obj.node.iri);
        SkosTypeSignals(q, q.obj.node.iri);
      } else {
        NoTypeNamed(q);
      }
    }
  }

  // ── What a tree says ──────────────────────────────────────────────────────

  /** The quads, by place, whose subjects are in the tree of `n` and that say so. */
  ghost function Saying(owner: Owner, quads: seq<Triple>, n: Node, says: Triple -> bool): set<nat> {
    set i: nat | i < |quads| && SameTree(owner, quads[i].subj, n) && says(quads[i])
  }

  /** How many quads in the tree of the subject of `q` say so. */
  ghost function Count(quads: seq<Triple>, q: Triple, says: Triple -> bool): nat {
    |Saying(OwnerOf(quads), quads, q.subj, says)|
  }

  /** Whether any does. */
  ghost predicate Any(quads: seq<Triple>, q: Triple, says: Triple -> bool) {
    exists r :: r in quads && SameTree(OwnerOf(quads), r.subj, q.subj) && says(r)
  }

  lemma {:induction false} TallyIsCount(owner: Owner, quads: seq<Triple>, n: Node, signal: TreeSignal,
                                        says: Triple -> bool)
    requires !signal.Neutral? && forall r :: says(r) <==> SignalOf(r) == signal
    ensures TreeTally(owner, quads, n)[signal] == |Saying(owner, quads, n, says)|
  {
    if quads != [] {
      TallyIsCount(owner, quads[..|quads| - 1], n, signal, says);
      SayingGrows(owner, quads, n, says);
    }
  }

  lemma SayingGrows(owner: Owner, quads: seq<Triple>, n: Node, says: Triple -> bool)
    requires quads != []
    ensures var last: nat := |quads| - 1;
            && last !in Saying(owner, quads[..last], n, says)
            && Saying(owner, quads, n, says)
               == Saying(owner, quads[..last], n, says)
                  + (if SameTree(owner, quads[last].subj, n) && says(quads[last]) then {last} else {})
  {
    var prefix := quads[..|quads| - 1];
    assert forall i: nat | i < |prefix| :: prefix[i] == quads[i];
  }

  lemma AnyIsCounted(quads: seq<Triple>, q: Triple, says: Triple -> bool)
    ensures Any(quads, q, says) <==> Count(quads, q, says) > 0
  {
    var saying := Saying(OwnerOf(quads), quads, q.subj, says);
    if Any(quads, q, says) {
      var r :| r in quads && SameTree(OwnerOf(quads), r.subj, q.subj) && says(r);
      var i: nat :| i < |quads| && quads[i] == r;
      assert i in saying;
    }
    if |saying| > 0 {
      var i :| i in saying;
      assert quads[i] in quads;
    }
  }

  /** The tally of a tree counts, signal by signal, the quads that say so. */
  lemma TallySays(quads: seq<Triple>, q: Triple, signal: TreeSignal, says: Triple -> bool)
    requires !signal.Neutral? && forall r :: says(r) <==> SignalOf(r) == signal
    ensures TreeTally(OwnerOf(quads), quads, q.subj)[signal] == Count(quads, q, says)
    ensures Any(quads, q, says) <==> Count(quads, q, says) > 0
  {
    TallyIsCount(OwnerOf(quads), quads, q.subj, signal, says);
    AnyIsCounted(quads, q, says);
  }

  lemma TypesTallied(quads: seq<Triple>, q: Triple)
    ensures var t := TreeTally(OwnerOf(quads), quads, q.subj);
            && (t[ShapesSignal] > 0 <==> Any(quads, q, SaysShape))
            && (t[EntailmentSignal] > 0 <==> Any(quads, q, SaysRule))
            && (t[ModelType] > 0 <==> Any(quads, q, TypesSchema))
            && (t[CatalogType] > 0 <==> Any(quads, q, TypesCatalog))
            && (t[ProvType] > 0 <==> Any(quads, q, TypesProvenance))
            && (t[ValuesType] > 0 <==> Any(quads, q, TypesCollection))
            && (t[VocabType] > 0 <==> Any(quads, q, TypesConcept))
            && (t[InstanceType] > 0 <==> Any(quads, q, TypesInstance))
  {
    forall r {
      SignalsSay(r);
    }
    TallySays(quads, q, ShapesSignal, SaysShape);
    TallySays(quads, q, EntailmentSignal, SaysRule);
    TallySays(quads, q, ModelType, TypesSchema);
    TallySays(quads, q, CatalogType, TypesCatalog);
    TallySays(quads, q, ProvType, TypesProvenance);
    TallySays(quads, q, ValuesType, TypesCollection);
    TallySays(quads, q, VocabType, TypesConcept);
    TallySays(quads, q, InstanceType, TypesInstance);
  }

  lemma PredicatesTallied(quads: seq<Triple>, q: Triple)
    ensures var t := TreeTally(OwnerOf(quads), quads, q.subj);
            && t[LinkPred] == Count(quads, q, Links)
            && t[ProvPred] == Count(quads, q, UsesProv)
            && t[VocabPred] == Count(quads, q, UsesSkos)
            && t[ModelPred] == Count(quads, q, UsesSchema)
            && (t[ValuesPred] > 0 <==> Any(quads, q, ListsMembers))
  {
    forall r {
      SignalsSay(r);
    }
    TallySays(quads, q, LinkPred, Links);
    TallySays(quads, q, ProvPred, UsesProv);
    TallySays(quads, q, VocabPred, UsesSkos);
    TallySays(quads, q, ModelPred, UsesSchema);
    TallySays(quads, q, ValuesPred, ListsMembers);
  }

  // ── The laws ──────────────────────────────────────────────────────────────

  /** One quad that says so makes the whole tree a shape. */
  lemma ShapesLaw(quads: seq<Triple>, q: Triple)
    ensures Role(quads, q) == Shapes <==> Any(quads, q, SaysShape)
  {
    TypesTallied(quads, q);
  }

  lemma EntailmentLaw(quads: seq<Triple>, q: Triple)
    ensures Role(quads, q) == Entailment <==> !Any(quads, q, SaysShape) && Any(quads, q, SaysRule)
  {
    TypesTallied(quads, q);
  }

  /** Neither a shape nor a rule. */
  ghost predicate Plain(quads: seq<Triple>, q: Triple) {
    !Any(quads, q, SaysShape) && !Any(quads, q, SaysRule)
  }

  lemma SchemaTypeLaw(quads: seq<Triple>, q: Triple)
    requires Plain(quads, q) && Any(quads, q, TypesSchema)
    ensures Role(quads, q) == Model
  {
    TypesTallied(quads, q);
  }

  lemma CatalogLaw(quads: seq<Triple>, q: Triple)
    ensures Role(quads, q) == Catalog
            <==> Plain(quads, q) && !Any(quads, q, TypesSchema) && Any(quads, q, TypesCatalog)
  {
    TypesTallied(quads, q);
  }

  /** No type of a model or of a catalogue either. */
  ghost predicate PlainRecord(quads: seq<Triple>, q: Triple) {
    Plain(quads, q) && !Any(quads, q, TypesSchema) && !Any(quads, q, TypesCatalog)
  }

  lemma ProvenanceTypeLaw(quads: seq<Triple>, q: Triple)
    requires PlainRecord(quads, q) && Any(quads, q, TypesProvenance)
    ensures Role(quads, q) == Provenance
  {
    TypesTallied(quads, q);
  }

  /** A collection is domain values only where no concept is. */
  lemma SkosTypeLaw(quads: seq<Triple>, q: Triple)
    requires PlainRecord(quads, q) && !Any(quads, q, TypesProvenance)
    ensures Any(quads, q, TypesConcept) ==> Role(quads, q) == Vocabulary
    ensures Any(quads, q, TypesCollection) && !Any(quads, q, TypesConcept) ==> Role(quads, q) == DomainValues
  {
    TypesTallied(quads, q);
  }

  lemma InstanceTypeLaw(quads: seq<Triple>, q: Triple)
    requires PlainRecord(quads, q) && !Any(quads, q, TypesProvenance)
    requires !Any(quads, q, TypesCollection) && !Any(quads, q, TypesConcept) && Any(quads, q, TypesAtAll)
    ensures Role(quads, q) == Instances
  {
    TypesTallied(quads, q);
    var r :| r in quads && SameTree(OwnerOf(quads), r.subj, q.subj) && TypesAtAll(r);
    assert TypesInstance(r);
  }

  /** No type speaks for the tree: its predicates do. */
  ghost predicate Untyped(quads: seq<Triple>, q: Triple) {
    Plain(quads, q) && !Any(quads, q, TypesAtAll)
  }

  lemma UntypedTally(quads: seq<Triple>, q: Triple)
    requires Untyped(quads, q)
    ensures PlainRecord(quads, q) && !Any(quads, q, TypesProvenance) && !Any(quads, q, TypesInstance)
    ensures !Any(quads, q, TypesCollection) && !Any(quads, q, TypesConcept)
  {
    forall r {
      SchemaTypesType(r);
    }
    NoneSays(quads, q, TypesSchema);
    NoneSays(quads, q, TypesInstance);
    UntypedRecord(quads, q);
  }

  lemma UntypedRecord(quads: seq<Triple>, q: Triple)
    requires !Any(quads, q, TypesAtAll)
    ensures !Any(quads, q, TypesCatalog) && !Any(quads, q, TypesProvenance)
    ensures !Any(quads, q, TypesCollection) && !Any(quads, q, TypesConcept)
  {
    forall r {
      OtherTypesType(r);
    }
    NoneSays(quads, q, TypesCatalog);
    NoneSays(quads, q, TypesProvenance);
    NoneSays(quads, q, TypesCollection);
    NoneSays(quads, q, TypesConcept);
  }

  lemma NoneSays(quads: seq<Triple>, q: Triple, says: Triple -> bool)
    requires !Any(quads, q, TypesAtAll) && forall r :: says(r) ==> TypesAtAll(r)
    ensures !Any(quads, q, says)
  {
  }

  lemma SchemaTypesType(r: Triple)
    ensures TypesSchema(r) || TypesInstance(r) ==> TypesAtAll(r)
  {
  }

  lemma OtherTypesType(r: Triple)
    ensures TypesCatalog(r) || TypesProvenance(r) || TypesCollection(r) || TypesConcept(r) ==> TypesAtAll(r)
  {
  }

  lemma LinksetLaw(quads: seq<Triple>, q: Triple)
    ensures Role(quads, q) == Linkset
            <==> && Untyped(quads, q) && Count(quads, q, Links) > 0
                 && Count(quads, q, Links)
                    >= Count(quads, q, UsesSchema) + Count(quads, q, UsesSkos) + Count(quads, q, UsesProv)
  {
    TypesTallied(quads, q);
    PredicatesTallied(quads, q);
    if Untyped(quads, q) {
      UntypedTally(quads, q);
    } else if Any(quads, q, TypesAtAll) {
      var r :| r in quads && SameTree(OwnerOf(quads), r.subj, q.subj) && TypesAtAll(r);
      SignalsSay(r);
    }
  }

  lemma UntypedLaw(quads: seq<Triple>, q: Triple)
    requires Untyped(quads, q) && Role(quads, q) != Linkset
    ensures var (prov, skos, schema) := (Count(quads, q, UsesProv), Count(quads, q, UsesSkos),
                                         Count(quads, q, UsesSchema));
            && (prov > 0 && prov >= schema + skos ==> Role(quads, q) == Provenance)
            && (prov == 0 || prov < schema + skos ==>
                  && (Any(quads, q, ListsMembers) && skos == 0 ==> Role(quads, q) == DomainValues)
                  && (!Any(quads, q, ListsMembers) || skos > 0 ==>
                        Role(quads, q) == if skos > schema then Vocabulary else if schema > 0 then Model
                              else Instances))
  {
    TypesTallied(quads, q);
    PredicatesTallied(quads, q);
    UntypedTally(quads, q);
  }
}
