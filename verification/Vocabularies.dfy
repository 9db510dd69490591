/** The graph roles and the vocabulary terms the classifiers go by. */
module Vocabularies {
  import opened Rdf

  datatype GraphKind =
    | Model | Vocabulary | Shapes | Entailment | Instances
    | Linkset | DomainValues | Provenance | Catalog

  const OWL_NS := "http://www.w3.org/2002/07/owl#"
  const RDFS_NS := "http://www.w3.org/2000/01/rdf-schema#"
  const SH_NS := "http://www.w3.org/ns/shacl#"
  const SKOS_NS := "http://www.w3.org/2004/02/skos/core#"
  const SP_NS := "http://spinrdf.org/sp#"
  const PROV_NS := "http://www.w3.org/ns/prov#"

  const OWL_ONTOLOGY := "http://www.w3.org/2002/07/owl#Ontology"
  const OWL_CLASS := "http://www.w3.org/2002/07/owl#Class"
  const OWL_OBJECT_PROPERTY := "http://www.w3.org/2002/07/owl#ObjectProperty"
  const OWL_DATATYPE_PROPERTY := "http://www.w3.org/2002/07/owl#DatatypeProperty"
  const OWL_ANNOTATION_PROPERTY := "http://www.w3.org/2002/07/owl#AnnotationProperty"
  const OWL_NAMED_INDIVIDUAL := "http://www.w3.org/2002/07/owl#NamedIndividual"
  const RDF_PROPERTY := "http://www.w3.org/1999/02/22-rdf-syntax-ns#Property"
  const RDFS_CLASS := "http://www.w3.org/2000/01/rdf-schema#Class"
  const SH_NODE_SHAPE := "http://www.w3.org/ns/shacl#NodeShape"
  const SH_PROPERTY_SHAPE := "http://www.w3.org/ns/shacl#PropertyShape"
  const SH_TARGET_CLASS := "http://www.w3.org/ns/shacl#targetClass"
  const SKOS_CONCEPT_SCHEME := "http://www.w3.org/2004/02/skos/core#ConceptScheme"
  const SKOS_CONCEPT := "http://www.w3.org/2004/02/skos/core#Concept"
  const SKOS_COLLECTION := "http://www.w3.org/2004/02/skos/core#Collection"
  const SKOS_ORDERED_COLLECTION := "http://www.w3.org/2004/02/skos/core#OrderedCollection"
  const SKOS_MEMBER := "http://www.w3.org/2004/02/skos/core#member"
  const SKOS_MEMBER_LIST := "http://www.w3.org/2004/02/skos/core#memberList"
  const SWRL_IMP := "http://www.w3.org/2003/11/swrl#Imp"
  const SPIN_RULE := "http://spinrdf.org/spin#rule"

  /** Types of schema resources: a subject with one of these is not instance data. */
  const SCHEMA_TYPE_OBJECTS: set<string> := {
    OWL_ONTOLOGY, OWL_CLASS, OWL_OBJECT_PROPERTY, OWL_DATATYPE_PROPERTY, OWL_ANNOTATION_PROPERTY,
    RDF_PROPERTY, RDFS_CLASS, SH_NODE_SHAPE, SH_PROPERTY_SHAPE, SKOS_CONCEPT_SCHEME, SKOS_CONCEPT, SWRL_IMP,
    OWL_NAMED_INDIVIDUAL,
    "http://www.w3.org/2002/07/owl#AllDifferent",
    "http://www.w3.org/2002/07/owl#Restriction",
    "http://www.w3.org/2002/07/owl#FunctionalProperty",
    "http://www.w3.org/2002/07/owl#TransitiveProperty",
    "http://www.w3.org/2002/07/owl#SymmetricProperty"
  }

  const PROV_TYPES: set<string> := {
    "http://www.w3.org/ns/prov#Activity",
    "http://www.w3.org/ns/prov#Entity",
    "http://www.w3.org/ns/prov#Agent",
    "http://www.w3.org/ns/prov#Person",
    "http://www.w3.org/ns/prov#Organization",
    "http://www.w3.org/ns/prov#SoftwareAgent",
    "http://www.w3.org/ns/prov#Bundle",
    "http://www.w3.org/ns/prov#Collection"
  }

  const CATALOG_TYPES: set<string> := {
    "http://www.w3.org/ns/dcat#Catalog",
    "http://www.w3.org/ns/dcat#Dataset",
    "http://www.w3.org/ns/dcat#Distribution",
    "http://www.w3.org/ns/dcat#DataService",
    "http://www.w3.org/ns/dcat#CatalogRecord",
    "http://rdfs.org/ns/void#Dataset",
    "http://rdfs.org/ns/void#Linkset"
  }

  /** Predicates that align one resource with another. */
  const LINK_PREDICATES: set<string> := {
    "http://www.w3.org/2002/07/owl#sameAs",
    "http://www.w3.org/2004/02/skos/core#exactMatch",
    "http://www.w3.org/2004/02/skos/core#closeMatch",
    "http://www.w3.org/2004/02/skos/core#broadMatch",
    "http://www.w3.org/2004/02/skos/core#narrowMatch",
    "http://www.w3.org/2004/02/skos/core#relatedMatch",
    "http://www.w3.org/2004/02/skos/core#mappingRelation"
  }
}
