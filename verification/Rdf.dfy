/** RDF terms as the triple store sees them: subjects and graph names are nodes,
    objects may also be literals and (RDF 1.2) triple terms. */
module Rdf {

  datatype Option<+T> = None | Some(value: T)

  /** A subject: a named node or a blank node. */
  datatype Node = Iri(iri: string) | Blank(name: string)

  datatype Term =
    | Resource(node: Node)
    | Literal(lexical: string, datatypeIri: string)
    | TripleTerm(subj: Node, pred: string, obj: Term)

  datatype Triple = Triple(subj: Node, pred: string, obj: Term)

  const RDF_TYPE := "http://www.w3.org/1999/02/22-rdf-syntax-ns#type"

  /** Whether blank node `b` occurs in `t`, at any depth of triple terms. */
  predicate TermMentions(t: Term, b: string) {
    match t
    case Resource(n) => n == Blank(b)
    case Literal(_, _) => false
    case TripleTerm(s, _, o) => s == Blank(b) || TermMentions(o, b)
  }

  predicate Mentions(t: Triple, b: string) {
    t.subj == Blank(b) || TermMentions(t.obj, b)
  }
}
