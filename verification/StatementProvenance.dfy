/** The annotations a dataset's changes get in its statement-provenance graph, and what
    they say about the data. */
module StatementProvenance {
  import opened Rdf

  type DatasetId = string

  datatype Profile = Minimal | Full

  /** A quad; `graph` is `None` for the default graph. */
  datatype Quad = Quad(subj: Node, pred: string, obj: Term, graph: Option<string>)

  /** One change of one graph, as a consumer of the change log reads it. */
  datatype Row = Row(
    seq_: nat,
    epoch: string,
    graph: Option<string>,
    full: bool,
    committed: bool,
    added: seq<Quad>,
    removed: seq<Quad>,
    commit: Option<string>,
    actor: Option<string>,
    createdAt: string)

  /** What annotations are about: a statement (its reifier's digest is taken as injective), a
      change of a statement, or a gap in what is known. */
  datatype Name = Plain(iri: string) | Reifier(q: Quad) | Event(q: Quad, n: nat) | Gap(epoch: string, n: nat)

  datatype Value =
    | NameValue(name: Name)
    | TripleValue(t: Triple)
    | Text(s: string)
    | Number(n: nat)
    | DateTime(s: string)

  /** rdf:reifies, rdf:type; ots:graph, ots:change, ots:op, ots:seq, ots:derivedBy,
      ots:skippedBlankNodeStatements; prov:wasGeneratedBy, prov:wasAssociatedWith,
      prov:atTime. */
  datatype Property =
    | Reifies | IsA
    | InGraph | Change | Op | Seq | DerivedBy | SkippedBlankNodeStatements
    | WasGeneratedBy | WasAssociatedWith | AtTime

  /** A quad of the statement-provenance graph of `dataset`. */
  datatype Annotation = Annotation(subj: Name, property: Property, value: Value, dataset: DatasetId)

  const OTS := "https://opentriplestore.org/ns#"
  const ENTAILMENT_PREFIX := "urn:entailment:"
  const PROVENANCE_PREFIX := "urn:ots:statement-provenance:"

  predicate HasBlank(q: Quad) {
    q.subj.Blank? || (q.obj.Resource? && q.obj.node.Blank?)
  }

  /** The part of `s` before its first colon, if it has one. */
  function BeforeColon(s: string): Option<string> {
    if s == "" then None
    else if s[0] == ':' then Some("")
    else
      match BeforeColon(s[1..])
      case None => None
      case Some(rest) => Some([s[0]] + rest)
  }

  /** The regime that derived the statements of an entailment graph. */
  function RegimeOf(graph: Option<string>): Option<string> {
    if graph.Some? && ENTAILMENT_PREFIX <= graph.value then BeforeColon(graph.value[|ENTAILMENT_PREFIX|..]) else None
  }

  // ── The annotations of one row ────────────────────────────────────────────

  /** Whether the log could carry what changed. */
  predicate Carried(row: Row) {
    row.full && row.committed
  }

  function GapName(row: Row): Name {
    Gap(row.epoch, row.seq_)
  }

  function GapAnnotations(row: Row, ds: DatasetId): seq<Annotation> {
    [Annotation(GapName(row), IsA, NameValue(Plain(OTS + "ProvenanceGap")), ds),
     Annotation(GapName(row), Seq, Number(row.seq_), ds)]
  }

  function Statement(q: Quad, ds: DatasetId): seq<Annotation> {
    [Annotation(Reifier(q), Reifies, TripleValue(Triple(q.subj, q.pred, q.obj)), ds)]
    + if q.graph.Some? then [Annotation(Reifier(q), InGraph, NameValue(Plain(q.graph.value)), ds)] else []
  }

  /** `op` is "add" or "remove". */
  function Happening(op: string, q: Quad, row: Row, ds: DatasetId): seq<Annotation> {
    var event := Event(q, row.seq_);
    [Annotation(Reifier(q), Change, NameValue(event), ds),
     Annotation(event, Op, Text(op), ds),
     Annotation(event, Seq, Number(row.seq_), ds)]
  }

  function Origin(q: Quad, row: Row, ds: DatasetId): seq<Annotation> {
    var event := Event(q, row.seq_);
    (if row.commit.Some? then [Annotation(event, WasGeneratedBy, NameValue(Plain(row.commit.value)), ds)] else [])
    + (match RegimeOf(row.graph)
       case None => []
       case Some(regime) => [Annotation(event, DerivedBy, NameValue(Plain(OTS + "regime/" + regime)), ds)])
  }

  /** What was done to a statement, whatever the profile. */
  function WhatWasDone(op: string, q: Quad, row: Row, ds: DatasetId): seq<Annotation> {
    Statement(q, ds) + Happening(op, q, row, ds) + Origin(q, row, ds)
  }

  /** Who did it, and when. */
  function WhoAndWhen(q: Quad, row: Row, ds: DatasetId): seq<Annotation> {
    var event := Event(q, row.seq_);
    (if row.actor.Some? then [Annotation(event, WasAssociatedWith, NameValue(Plain(row.actor.value)), ds)] else [])
    + [Annotation(event, AtTime, DateTime(row.createdAt), ds)]
  }

  function ChangeAnnotations(op: string, q: Quad, row: Row, ds: DatasetId, profile: Profile): seq<Annotation> {
    WhatWasDone(op, q, row, ds) + if profile.Full? then WhoAndWhen(q, row, ds) else []
  }

  /** The annotations of each statement in turn, those with a blank node left out. */
  function Annotated(annotations: Quad -> seq<Annotation>, quads: seq<Quad>): seq<Annotation> {
    if quads == [] then []
    else
      var last := quads[|quads| - 1];
      Annotated(annotations, quads[..|quads| - 1]) + if HasBlank(last) then [] else annotations(last)
  }

  function ForChange(op: string, row: Row, ds: DatasetId, profile: Profile): Quad -> seq<Annotation> {
    q => ChangeAnnotations(op, q, row, ds, profile)
  }

  /** The annotations of the changes `op` made to `quads`. */
  function ChangesAnnotations(op: string, quads: seq<Quad>, row: Row, ds: DatasetId,
                              profile: Profile): seq<Annotation> {
    Annotated(ForChange(op, row, ds, profile), quads)
  }

  /** The record of the statements a row skipped. */
  function SkippedAnnotations(row: Row, ds: DatasetId, skipped: nat): seq<Annotation> {
    if skipped == 0 then []
    else GapAnnotations(row, ds) + [Annotation(GapName(row), SkippedBlankNodeStatements, Number(skipped), ds)]
  }

  function CountBlank(quads: seq<Quad>): nat {
    if quads == [] then 0 else CountBlank(quads[..|quads| - 1]) + if HasBlank(quads[|quads| - 1]) then 1 else 0
  }

  /** The annotations of a row the log could carry: its additions, its removals, what it skipped. */
  function CarriedAnnotations(adds: Quad -> seq<Annotation>, removes: Quad -> seq<Annotation>, row: Row,
                              ds: DatasetId): seq<Annotation> {
    Annotated(adds, row.added) + Annotated(removes, row.removed)
    + SkippedAnnotations(row, ds, CountBlank(row.added) + CountBlank(row.removed))
  }

  function RowAnnotations(row: Row, ds: DatasetId, profile: Profile): seq<Annotation> {
    if !Carried(row) then
      GapAnnotations(row, ds)
      + if row.graph.Some? then [Annotation(GapName(row), InGraph, NameValue(Plain(row.graph.value)), ds)] else []
    else
      CarriedAnnotations(ForChange("add", row, ds, profile), ForChange("remove", row, ds, profile), row, ds)
  }

  method AnnotateEach(annotations: Quad -> seq<Annotation>, quads: seq<Quad>, out: seq<Annotation>)
    returns (out': seq<Annotation>, skipped: nat)
    ensures out' == out + Annotated(annotations, quads)
    ensures skipped == CountBlank(quads)
  {
    out', skipped := out, 0;
    for k := 0 to |quads|
      invariant out' == out + Annotated(annotations, quads[..k])
      invariant skipped == CountBlank(quads[..k])
    {
      assert quads[..k + 1][..k] == quads[..k];
      if HasBlank(quads[k]) {
        skipped := skipped + 1;
      } else {
        out' := out' + annotations(quads[k]);
      }
    }
    assert quads[..|quads|] == quads;
  }

  /** Append the annotations of `row` to `out`; also how many statements were skipped. */
  method Annotate(row: Row, ds: DatasetId, profile: Profile, out: seq<Annotation>)
    returns (out': seq<Annotation>, skipped: nat)
    ensures out' == out + RowAnnotations(row, ds, profile)
    ensures skipped == if Carried(row) then CountBlank(row.added) + CountBlank(row.removed) else 0
  {
    if !Carried(row) {
      out', skipped := out + GapAnnotations(row, ds), 0;
      if row.graph.Some? {
        out' := out' + [Annotation(GapName(row), InGraph, NameValue(Plain(row.graph.value)), ds)];
      }
      return;
    }
    out', skipped := AnnotateCarried(ForChange("add", row, ds, profile), ForChange("remove", row, ds, profile), row, ds,
                                     out);
  }

  method AnnotateCarried(adds: Quad -> seq<Annotation>, removes: Quad -> seq<Annotation>, row: Row, ds: DatasetId,
                         out: seq<Annotation>)
    returns (out': seq<Annotation>, skipped: nat)
    ensures out' == out + CarriedAnnotations(adds, removes, row, ds)
    ensures skipped == CountBlank(row.added) + CountBlank(row.removed)
  {
    var more: nat;
    out', skipped := AnnotateEach(adds, row.added, out);
    out', more := AnnotateEach(removes, row.removed, out');
    skipped := skipped + more;
    var gap := SkippedAnnotations(row, ds, skipped);
    Associative(out, Annotated(adds, row.added), Annotated(removes, row.removed), gap);
    if skipped > 0 {
      out' := out' + gap;
    }
  }

  lemma Associative<T>(a: seq<T>, b: seq<T>, c: seq<T>, d: seq<T>)
    ensures a + b + c + d == a + (b + c + d)
    ensures d == [] ==> a + b + c == a + (b + c + d)
  {
  }

  // ── What a row's annotations say about it ─────────────────────────────────

  lemma {:induction false} AnnotatedHolds(annotations: Quad -> seq<Annotation>, quads: seq<Quad>, a: Annotation)
    ensures a in Annotated(annotations, quads) <==> exists q :: q in quads && !HasBlank(q) && a in annotations(q)
  {
    if quads != [] {
      var prefix, last := quads[..|quads| - 1], quads[|quads| - 1];
      assert quads == prefix + [last];
      AnnotatedHolds(annotations, prefix, a);
      if a in Annotated(annotations, prefix) {
        var q :| q in prefix && !HasBlank(q) && a in annotations(q);
        assert q in quads;
      }
    }
  }

  lemma {:induction false} BlanksAreCounted(quads: seq<Quad>)
    ensures CountBlank(quads) > 0 <==> exists q :: q in quads && HasBlank(q)
  {
    if quads != [] {
      var prefix, last := quads[..|quads| - 1], quads[|quads| - 1];
      assert quads == prefix + [last];
      BlanksAreCounted(prefix);
    }
  }

  /** Who made a change, or when. */
  predicate WhoOrWhen(a: Annotation) {
    a.property.WasAssociatedWith? || a.property.AtTime?
  }

  /** `a` is about the statement `q`. */
  predicate About(a: Annotation, q: Quad) {
    a.subj == Reifier(q) || (a.subj.Event? && a.subj.q == q)
  }

  /** What is said where, told by the properties. */
  lemma PropertiesTell(op: string, q: Quad, row: Row, ds: DatasetId)
    ensures forall a | a in Statement(q, ds) :: a.property.Reifies? || a.property.InGraph?
    ensures forall a | a in Happening(op, q, row, ds) :: a.property.Change? || a.property.Op? || a.property.Seq?
    ensures forall a | a in Origin(q, row, ds) :: a.property.WasGeneratedBy? || a.property.DerivedBy?
    ensures forall a | a in WhoAndWhen(q, row, ds) :: WhoOrWhen(a)
  {
  }

  lemma SubjectsTell(op: string, q: Quad, row: Row, ds: DatasetId)
    ensures forall a | a in Statement(q, ds) :: a.dataset == ds && About(a, q)
    ensures forall a | a in Happening(op, q, row, ds) :: a.dataset == ds && About(a, q)
    ensures forall a | a in Origin(q, row, ds) :: a.dataset == ds && About(a, q)
    ensures forall a | a in WhoAndWhen(q, row, ds) :: a.dataset == ds && About(a, q)
  {
  }

  lemma ChangeIsAbout(op: string, q: Quad, row: Row, ds: DatasetId, profile: Profile, a: Annotation)
    requires a in ChangeAnnotations(op, q, row, ds, profile)
    ensures a.dataset == ds && About(a, q)
  {
    SubjectsTell(op, q, row, ds);
    InEither(WhatWasDone(op, q, row, ds), if profile.Full? then WhoAndWhen(q, row, ds) else [], a);
    InOneOf(Statement(q, ds), Happening(op, q, row, ds), Origin(q, row, ds), a);
  }

  lemma ChangeInMinimal(op: string, q: Quad, row: Row, ds: DatasetId, a: Annotation)
    ensures a in ChangeAnnotations(op, q, row, ds, Minimal)
            <==> a in ChangeAnnotations(op, q, row, ds, Full) && !WhoOrWhen(a)
    ensures a in ChangeAnnotations(op, q, row, ds, Full) ==> !a.subj.Gap?
  {
    PropertiesTell(op, q, row, ds);
    InEither(WhatWasDone(op, q, row, ds), WhoAndWhen(q, row, ds), a);
    InOneOf(Statement(q, ds), Happening(op, q, row, ds), Origin(q, row, ds), a);
    if a in ChangeAnnotations(op, q, row, ds, Full) {
      ChangeIsAbout(op, q, row, ds, Full, a);
    }
  }

  lemma InEither<T>(a: seq<T>, b: seq<T>, x: T)
    ensures x in a + b <==> x in a || x in b
  {
  }

  lemma ChangesInMinimal(op: string, quads: seq<Quad>, row: Row, ds: DatasetId, a: Annotation)
    ensures a in ChangesAnnotations(op, quads, row, ds, Minimal)
            <==> a in ChangesAnnotations(op, quads, row, ds, Full) && !WhoOrWhen(a)
    ensures a in ChangesAnnotations(op, quads, row, ds, Full) ==> !a.subj.Gap?
  {
    var minimal, full := ForChange(op, row, ds, Minimal), ForChange(op, row, ds, Full);
    AnnotatedHolds(minimal, quads, a);
    AnnotatedHolds(full, quads, a);
    forall q
      ensures a in minimal(q) <==> a in full(q) && !WhoOrWhen(a)
      ensures a in full(q) ==> !a.subj.Gap?
    {
      ChangeInMinimal(op, q, row, ds, a);
    }
  }

  lemma SkipsSayNeitherWhoNorWhen(row: Row, ds: DatasetId, skipped: nat)
    ensures forall a | a in SkippedAnnotations(row, ds, skipped) :: a.subj == GapName(row) && !WhoOrWhen(a)
  {
  }

  /** The minimal profile is the full one without who and when, and nothing else. */
  lemma MinimalIsFullWithoutWhoAndWhen(row: Row, ds: DatasetId, a: Annotation)
    ensures a in RowAnnotations(row, ds, Minimal) <==> a in RowAnnotations(row, ds, Full) && !WhoOrWhen(a)
  {
    if Carried(row) {
      var skipped := SkippedAnnotations(row, ds, CountBlank(row.added) + CountBlank(row.removed));
      ChangesInMinimal("add", row.added, row, ds, a);
      ChangesInMinimal("remove", row.removed, row, ds, a);
      SkipsSayNeitherWhoNorWhen(row, ds, CountBlank(row.added) + CountBlank(row.removed));
      InOneOf(ChangesAnnotations("add", row.added, row, ds, Minimal),
              ChangesAnnotations("remove", row.removed, row, ds, Minimal), skipped, a);
      InOneOf(ChangesAnnotations("add", row.added, row, ds, Full),
              ChangesAnnotations("remove", row.removed, row, ds, Full), skipped, a);
    }
  }

  /** A row has a gap on record exactly when something of it was left out: the log could
      not carry the change, or a changed statement holds a blank node. */
  lemma GapsAreRecorded(row: Row, ds: DatasetId)
    ensures Annotation(GapName(row), IsA, NameValue(Plain(OTS + "ProvenanceGap")), ds) in RowAnnotations(row, ds, Full)
            <==> !Carried(row) || exists q :: (q in row.added || q in row.removed) && HasBlank(q)
  {
    if Carried(row) {
      var gap := Annotation(GapName(row), IsA, NameValue(Plain(OTS + "ProvenanceGap")), ds);
      var skipped := SkippedAnnotations(row, ds, CountBlank(row.added) + CountBlank(row.removed));
      ChangesInMinimal("add", row.added, row, ds, gap);
      ChangesInMinimal("remove", row.removed, row, ds, gap);
      BlanksAreCounted(row.added);
      BlanksAreCounted(row.removed);
      InOneOf(ChangesAnnotations("add", row.added, row, ds, Full),
              ChangesAnnotations("remove", row.removed, row, ds, Full), skipped, gap);
      assert skipped != [] ==> skipped[0] == gap;
    }
  }

  lemma ChangesAbout(op: string, quads: seq<Quad>, row: Row, ds: DatasetId, profile: Profile, q: Quad)
    ensures (exists a :: a in ChangesAnnotations(op, quads, row, ds, profile) && About(a, q))
            <==> q in quads && !HasBlank(q)
  {
    var f := ForChange(op, row, ds, profile);
    if a :| a in ChangesAnnotations(op, quads, row, ds, profile) && About(a, q) {
      AnnotatedHolds(f, quads, a);
      var q' :| q' in quads && !HasBlank(q') && a in f(q');
      ChangeIsAbout(op, q', row, ds, profile, a);
    }
    if q in quads && !HasBlank(q) {
      var a := f(q)[0];
      ChangeIsAbout(op, q, row, ds, profile, a);
      AnnotatedHolds(f, quads, a);
      assert a in f(q);
    }
  }

  /** A changed statement is annotated exactly when neither its subject nor its object is a
      blank node. */
  lemma AnnotatedExactlyWhen(row: Row, ds: DatasetId, profile: Profile, q: Quad)
    requires Carried(row) && (q in row.added || q in row.removed)
    ensures (exists a :: a in RowAnnotations(row, ds, profile) && About(a, q)) <==> !HasBlank(q)
  {
    var adds := ChangesAnnotations("add", row.added, row, ds, profile);
    var removes := ChangesAnnotations("remove", row.removed, row, ds, profile);
    var skipped := SkippedAnnotations(row, ds, CountBlank(row.added) + CountBlank(row.removed));
    ChangesAbout("add", row.added, row, ds, profile, q);
    ChangesAbout("remove", row.removed, row, ds, profile, q);
    SkipsAreGaps(row, ds, CountBlank(row.added) + CountBlank(row.removed));
    if a :| a in RowAnnotations(row, ds, profile) && About(a, q) {
      InOneOf(adds, removes, skipped, a);
    }
    if a :| (a in adds || a in removes) && About(a, q) {
      InOneOf(adds, removes, skipped, a);
    }
  }

  /** So a statement can mention a blank node and be annotated: in a triple term, it is not
      looked for. */
  lemma BlankInTripleTermIsAnnotated(row: Row, ds: DatasetId, profile: Profile) returns (q: Quad)
    requires Carried(row) && row.added == [QuotesABlank(row.graph)]
    ensures q in row.added && Mentions(Triple(q.subj, q.pred, q.obj), "b")
    ensures exists a :: a in RowAnnotations(row, ds, profile) && About(a, q)
  {
    q := QuotesABlank(row.graph);
    AnnotatedExactlyWhen(row, ds, profile, q);
  }

  function QuotesABlank(graph: Option<string>): Quad {
    Quad(Iri("ex:s"), "ex:p", TripleTerm(Blank("b"), "ex:p", Resource(Iri("ex:o"))), graph)
  }

  // ── Which rows are annotated, and where ───────────────────────────────────

  /** A dataset that opted in, with the graphs registered with it. */
  datatype OptedIn = OptedIn(id: DatasetId, profile: Profile, graphs: seq<string>)

  /** The dataset and profile of each data graph. */
  type OwnerMap = map<string, (DatasetId, Profile)>

  predicate IsProvenanceGraph(g: string) {
    PROVENANCE_PREFIX <= g
  }

  function WithGraphs(owner: OwnerMap, ds: OptedIn, n: nat): OwnerMap
    requires n <= |ds.graphs|
  {
    if n == 0 then owner
    else
      var before, g := WithGraphs(owner, ds, n - 1), ds.graphs[n - 1];
      if IsProvenanceGraph(g) then before else before[g := (ds.id, ds.profile)]
  }

  /** A graph of several datasets goes to the last of them; a provenance graph to none. */
  function Owners(datasets: seq<OptedIn>): OwnerMap {
    if datasets == [] then map[] else
    var last := datasets[|datasets| - 1];
    WithGraphs(Owners(datasets[..|datasets| - 1]), last, |last.graphs|)
  }

  lemma {:induction false} OwnersSkipProvenanceGraphs(datasets: seq<OptedIn>, g: string)
    requires IsProvenanceGraph(g)
    ensures g !in Owners(datasets)
  {
    if datasets != [] {
      OwnersSkipProvenanceGraphs(datasets[..|datasets| - 1], g);
      var last := datasets[|datasets| - 1];
      WithGraphsSkips(Owners(datasets[..|datasets| - 1]), last, |last.graphs|, g);
    }
  }

  lemma {:induction false} WithGraphsSkips(owner: OwnerMap, ds: OptedIn, n: nat, g: string)
    requires n <= |ds.graphs| && IsProvenanceGraph(g) && g !in owner
    ensures g !in WithGraphs(owner, ds, n)
  {
    if n > 0 {
      WithGraphsSkips(owner, ds, n - 1, g);
    }
  }

  method FindOwners(datasets: seq<OptedIn>) returns (owner: OwnerMap)
    ensures owner == Owners(datasets)
  {
    owner := map[];
    for i := 0 to |datasets|
      invariant owner == Owners(datasets[..i])
    {
      ghost var before := owner;
      for j := 0 to |datasets[i].graphs|
        invariant owner == WithGraphs(before, datasets[i], j)
      {
        var g := datasets[i].graphs[j];
        if !IsProvenanceGraph(g) {
          owner := owner[g := (datasets[i].id, datasets[i].profile)];
        }
      }
      assert datasets[..i + 1][..i] == datasets[..i];
    }
    assert datasets[..|datasets|] == datasets;
  }

  predicate IsData(owner: OwnerMap, row: Row) {
    row.graph.Some? && row.graph.value in owner
  }

  /** The annotations of `row`, if it is of a data graph of a dataset that opted in. */
  function AnnotationsOf(owner: OwnerMap, row: Row): seq<Annotation> {
    if IsData(owner, row) then RowAnnotations(row, owner[row.graph.value].0, owner[row.graph.value].1) else []
  }

  // ── The annotations determine the data ────────────────────────────────────

  /** The data after the rows, from empty graphs. */
  function Data(rows: seq<Row>): set<Quad> {
    if rows == [] then {}
    else
      var last := rows[|rows| - 1];
      (Data(rows[..|rows| - 1]) - set q | q in last.removed) + set q | q in last.added
  }

  /** The rows are in order and each is about quads of its own graph; those about the data
      of datasets that opted in carry their change in full, net of the state before it.
      Other rows, the consumer's own among them, may be there too. */
  predicate Faithful(owner: OwnerMap, rows: seq<Row>) {
    rows == [] ||
    (var last, before := rows[|rows| - 1], rows[..|rows| - 1];
     && Faithful(owner, before)
     && (before != [] ==> before[|before| - 1].seq_ < last.seq_)
     && (forall q | q in last.added :: q.graph == last.graph)
     && (forall q | q in last.removed :: q.graph == last.graph)
     && (IsData(owner, last) ==>
           && Carried(last)
           && (forall q | q in last.added :: q !in Data(before))
           && (forall q | q in last.removed :: q in Data(before))))
  }

  function Elements(annotations: seq<Annotation>): set<Annotation> {
    set i | 0 <= i < |annotations| :: annotations[i]
  }

  function AllAnnotations(owner: OwnerMap, rows: seq<Row>): set<Annotation> {
    if rows == [] then {}
    else AllAnnotations(owner, rows[..|rows| - 1]) + Elements(AnnotationsOf(owner, rows[|rows| - 1]))
  }

  /** The annotations say that change `n` of the statement `q` was `op`. */
  predicate Says(annotations: set<Annotation>, ds: DatasetId, q: Quad, n: nat, op: string) {
    && Annotation(Reifier(q), Change, NameValue(Event(q, n)), ds) in annotations
    && Annotation(Event(q, n), Op, Text(op), ds) in annotations
  }

  /** The last change of `q`, by sequence number, was an addition. */
  ghost predicate LastAdded(annotations: set<Annotation>, ds: DatasetId, q: Quad) {
    exists n: nat ::
      Says(annotations, ds, q, n, "add") && forall m: nat, op :: Says(annotations, ds, q, m, op) ==> m <= n
  }

  /** The event annotations of `q` among those of one change. */
  lemma ChangeSays(op: string, last: Quad, row: Row, ds: DatasetId, profile: Profile, ds': DatasetId, q: Quad, n: nat,
                   text: string)
    ensures Annotation(Event(q, n), Op, Text(text), ds') in ChangeAnnotations(op, last, row, ds, profile)
            <==> q == last && n == row.seq_ && text == op && ds' == ds
    ensures Annotation(Reifier(q), Change, NameValue(Event(q, n)), ds') in ChangeAnnotations(op, last, row, ds, profile)
            <==> q == last && n == row.seq_ && ds' == ds
  {
    var more := if profile.Full? then WhoAndWhen(last, row, ds) else [];
    var said := Annotation(Event(q, n), Op, Text(text), ds');
    var changed := Annotation(Reifier(q), Change, NameValue(Event(q, n)), ds');
    PropertiesTell(op, last, row, ds);
    InEither(WhatWasDone(op, last, row, ds), more, said);
    InEither(WhatWasDone(op, last, row, ds), more, changed);
    InOneOf(Statement(last, ds), Happening(op, last, row, ds), Origin(last, row, ds), said);
    InOneOf(Statement(last, ds), Happening(op, last, row, ds), Origin(last, row, ds), changed);
    var happening := Happening(op, last, row, ds);
    assert happening[0].property.Change? && happening[1].property.Op? && happening[2].property.Seq?;
    assert said in happening <==> said == happening[1];
    assert changed in happening <==> changed == happening[0];
  }

  lemma {:induction false} ChangesSay(op: string, quads: seq<Quad>, row: Row, ds: DatasetId, profile: Profile,
                                      ds': DatasetId, q: Quad, n: nat, text: string)
    ensures Annotation(Event(q, n), Op, Text(text), ds') in ChangesAnnotations(op, quads, row, ds, profile)
            <==> q in quads && !HasBlank(q) && n == row.seq_ && text == op && ds' == ds
    ensures Annotation(Reifier(q), Change, NameValue(Event(q, n)), ds')
            in ChangesAnnotations(op, quads, row, ds, profile)
            <==> q in quads && !HasBlank(q) && n == row.seq_ && ds' == ds
  {
    if quads != [] {
      var prefix, last := quads[..|quads| - 1], quads[|quads| - 1];
      assert quads == prefix + [last];
      ChangesSay(op, prefix, row, ds, profile, ds', q, n, text);
      ChangeSays(op, last, row, ds, profile, ds', q, n, text);
    }
  }

  /** `row` made the change `op` to `q`. */
  predicate Made(row: Row, q: Quad, op: string) {
    !HasBlank(q) && ((op == "add" && q in row.added) || (op == "remove" && q in row.removed))
  }

  lemma SkipsAreGaps(row: Row, ds: DatasetId, skipped: nat)
    ensures forall a | a in SkippedAnnotations(row, ds, skipped) :: a.subj.Gap?
  {
  }

  lemma RowSays(row: Row, ds: DatasetId, profile: Profile, ds': DatasetId, q: Quad, n: nat, op: string)
    requires Carried(row)
    ensures Annotation(Event(q, n), Op, Text(op), ds') in RowAnnotations(row, ds, profile)
            <==> Made(row, q, op) && n == row.seq_ && ds' == ds
    ensures Made(row, q, op) && n == row.seq_ && ds' == ds
            ==> Annotation(Reifier(q), Change, NameValue(Event(q, n)), ds') in RowAnnotations(row, ds, profile)
  {
    var adds := ChangesAnnotations("add", row.added, row, ds, profile);
    var removes := ChangesAnnotations("remove", row.removed, row, ds, profile);
    var gap := SkippedAnnotations(row, ds, CountBlank(row.added) + CountBlank(row.removed));
    ChangesSay("add", row.added, row, ds, profile, ds', q, n, op);
    ChangesSay("remove", row.removed, row, ds, profile, ds', q, n, op);
    SkipsAreGaps(row, ds, CountBlank(row.added) + CountBlank(row.removed));
    InOneOf(adds, removes, gap, Annotation(Event(q, n), Op, Text(op), ds'));
    InOneOf(adds, removes, gap, Annotation(Reifier(q), Change, NameValue(Event(q, n)), ds'));
  }

  lemma InOneOf<T>(a: seq<T>, b: seq<T>, c: seq<T>, x: T)
    ensures x in a + b + c <==> x in a || x in b || x in c
  {
  }

  /** Some row made the change `op` to `q` at `n`. */
  ghost predicate Happened(rows: seq<Row>, q: Quad, n: nat, op: string) {
    exists row :: row in rows && row.seq_ == n && Made(row, q, op)
  }

  /** What the annotations of one row say about `q`. */
  lemma RowSaysWhatItMade(owner: OwnerMap, row: Row, q: Quad, n: nat, op: string)
    requires q.graph.Some? && q.graph.value in owner && (IsData(owner, row) ==> Carried(row))
    requires Made(row, q, op) ==> q.graph == row.graph
    ensures var ds := owner[q.graph.value].0;
            && (Annotation(Event(q, n), Op, Text(op), ds) in AnnotationsOf(owner, row)
                <==> row.seq_ == n && Made(row, q, op))
            && (row.seq_ == n && Made(row, q, op)
                ==> Annotation(Reifier(q), Change, NameValue(Event(q, n)), ds) in AnnotationsOf(owner, row))
  {
    if IsData(owner, row) {
      RowSays(row, owner[row.graph.value].0, owner[row.graph.value].1, owner[q.graph.value].0, q, n, op);
    }
  }

  lemma HappenedInOneMore(before: seq<Row>, last: Row, q: Quad, n: nat, op: string)
    ensures Happened(before + [last], q, n, op) <==> Happened(before, q, n, op) || (last.seq_ == n && Made(last, q, op))
  {
    if Happened(before, q, n, op) {
      var row :| row in before && row.seq_ == n && Made(row, q, op);
      assert row in before + [last];
    }
    assert last in before + [last];
  }

  lemma SaidInOneMore(before: set<Annotation>, last: seq<Annotation>, a: Annotation)
    ensures a in before + Elements(last) <==> a in before || a in last
  {
  }

  /** The annotations say exactly what happened. */
  lemma {:induction false} AnnotationsSayWhatHappened(owner: OwnerMap, rows: seq<Row>, q: Quad, n: nat, op: string)
    requires Faithful(owner, rows) && q.graph.Some? && q.graph.value in owner
    ensures Annotation(Event(q, n), Op, Text(op), owner[q.graph.value].0) in AllAnnotations(owner, rows)
            <==> Happened(rows, q, n, op)
    ensures Says(AllAnnotations(owner, rows), owner[q.graph.value].0, q, n, op) <==> Happened(rows, q, n, op)
  {
    if rows != [] {
      var before, last, ds := rows[..|rows| - 1], rows[|rows| - 1], owner[q.graph.value].0;
      AnnotationsSayWhatHappened(owner, before, q, n, op);
      RowSaysWhatItMade(owner, last, q, n, op);
      assert rows == before + [last];
      HappenedInOneMore(before, last, q, n, op);
      SaidInOneMore(AllAnnotations(owner, before), AnnotationsOf(owner, last),
                    Annotation(Event(q, n), Op, Text(op), ds));
      SaidInOneMore(AllAnnotations(owner, before), AnnotationsOf(owner, last),
                    Annotation(Reifier(q), Change, NameValue(Event(q, n)), ds));
    }
  }

  lemma {:induction false} SeqsIncrease(owner: OwnerMap, rows: seq<Row>, row: Row)
    requires Faithful(owner, rows) && row in rows
    ensures row.seq_ < rows[|rows| - 1].seq_ || row == rows[|rows| - 1]
  {
    var before, last := rows[..|rows| - 1], rows[|rows| - 1];
    assert rows == before + [last];
    if row != last {
      SeqsIncrease(owner, before, row);
    }
  }

  ghost predicate LastWasAdd(rows: seq<Row>, q: Quad) {
    exists n: nat :: Happened(rows, q, n, "add") && forall m: nat, op | Happened(rows, q, m, op) :: m <= n
  }

  /** One more row decides about the quads it changes, and about no others. */
  lemma LastRowDecides(owner: OwnerMap, rows: seq<Row>, q: Quad)
    requires Faithful(owner, rows) && rows != [] && q.graph.Some? && q.graph.value in owner && !HasBlank(q)
    ensures var before, last := rows[..|rows| - 1], rows[|rows| - 1];
            LastWasAdd(rows, q) <==> Made(last, q, "add") || (!Made(last, q, "remove") && LastWasAdd(before, q))
  {
    var before, last := rows[..|rows| - 1], rows[|rows| - 1];
    assert rows == before + [last];
    forall m: nat, op | Happened(rows, q, m, op)
      ensures m <= last.seq_ && (m == last.seq_ ==> Made(last, q, op))
    {
      var row :| row in rows && row.seq_ == m && Made(row, q, op);
      SeqsIncrease(owner, rows, row);
    }
    forall m: nat, op
      ensures Happened(rows, q, m, op) <==> Happened(before, q, m, op) || (last.seq_ == m && Made(last, q, op))
    {
    }
    if Made(last, q, "add") {
      assert Happened(rows, q, last.seq_, "add");
    } else if Made(last, q, "remove") {
      assert Happened(rows, q, last.seq_, "remove");
    }
  }

  lemma {:induction false} DataIsLastAdded(owner: OwnerMap, rows: seq<Row>, q: Quad)
    requires Faithful(owner, rows) && q.graph.Some? && q.graph.value in owner && !HasBlank(q)
    ensures q in Data(rows) <==> LastWasAdd(rows, q)
  {
    if rows != [] {
      DataIsLastAdded(owner, rows[..|rows| - 1], q);
      LastRowDecides(owner, rows, q);
    }
  }

  /** A statement is in its graph exactly when the annotations say its change with the
      highest sequence number was an addition: the provenance graph determines the data. */
  lemma AnnotationsDetermineData(owner: OwnerMap, rows: seq<Row>, q: Quad)
    requires Faithful(owner, rows) && q.graph.Some? && q.graph.value in owner && !HasBlank(q)
    ensures q in Data(rows) <==> LastAdded(AllAnnotations(owner, rows), owner[q.graph.value].0, q)
  {
    DataIsLastAdded(owner, rows, q);
    forall n: nat, op
      ensures Says(AllAnnotations(owner, rows), owner[q.graph.value].0, q, n, op) <==> Happened(rows, q, n, op)
    {
      AnnotationsSayWhatHappened(owner, rows, q, n, op);
    }
  }
}
