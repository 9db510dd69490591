/** Rule sets kept in one managed graph: reading a set by traversal, replacing it and
    removing it. */
module RuleSets {
  import opened Rdf

  type Graph = set<Triple>

  // ── What belongs to a set ─────────────────────────────────────────────────

  /** The traversal follows an object that is a blank node, or an IRI under the set's IRI. */
  predicate Follows(iri: string, o: Term) {
    o.Resource? && (o.node.Blank? || iri <= o.node.iri)
  }

  ghost predicate Edge(g: Graph, iri: string, a: Node, b: Node) {
    exists t :: t in g && t.subj == a && t.obj == Resource(b) && Follows(iri, t.obj)
  }

  /** A way from the set node through blank nodes and IRIs under the set's IRI. */
  ghost predicate IsWay(g: Graph, iri: string, way: seq<Node>) {
    way != [] && way[0] == Iri(iri) && forall i | 0 <= i < |way| - 1 :: Edge(g, iri, way[i], way[i + 1])
  }

  ghost predicate Reachable(g: Graph, iri: string, n: Node) {
    exists way :: IsWay(g, iri, way) && way[|way| - 1] == n
  }

  /** The quads of the set: those whose subject can be reached from the set node. */
  ghost function QuadsOf(g: Graph, iri: string): Graph {
    set t | t in g && Reachable(g, iri, t.subj)
  }

  lemma RootIsReachable(g: Graph, iri: string)
    ensures Reachable(g, iri, Iri(iri))
  {
    assert IsWay(g, iri, [Iri(iri)]);
  }

  lemma StepIsReachable(g: Graph, iri: string, t: Triple)
    requires t in g && Reachable(g, iri, t.subj) && Follows(iri, t.obj)
    ensures Reachable(g, iri, t.obj.node)
  {
    var way :| IsWay(g, iri, way) && way[|way| - 1] == t.subj;
    assert Edge(g, iri, t.subj, t.obj.node);
    assert IsWay(g, iri, way + [t.obj.node]);
  }

  /** Everything reachable is in every set of nodes that holds the set node and is closed
      under the edges. */
  lemma {:induction false} ClosedSetsHoldTheReachable(g: Graph, iri: string, nodes: set<Node>, way: seq<Node>)
    requires Iri(iri) in nodes
    requires forall t | t in g && t.subj in nodes && Follows(iri, t.obj) :: t.obj.node in nodes
    requires IsWay(g, iri, way)
    ensures way[|way| - 1] in nodes
  {
    if |way| > 1 {
      var shorter := way[..|way| - 1];
      assert IsWay(g, iri, shorter);
      ClosedSetsHoldTheReachable(g, iri, nodes, shorter);
      assert Edge(g, iri, way[|way| - 2], way[|way| - 1]);
    }
  }

  /** `part` takes every statement about the set node and, with a statement, every one about
      its object if that is a blank node or an IRI that begins with the set's. */
  ghost predicate IsWhole(g: Graph, iri: string, part: Graph) {
    && (forall t | t in g && t.subj == Iri(iri) :: t in part)
    && (forall t, t' | t in part && t' in g && t.obj == Resource(t'.subj) && t'.subj.Blank? :: t' in part)
    && (forall t, t' | t in part && t' in g && t.obj == Resource(t'.subj) && t'.subj.Iri?
                       && |iri| <= |t'.subj.iri| && t'.subj.iri[..|iri|] == iri :: t' in part)
  }

  /** The quads of a set are the least part of the graph that is whole. */
  lemma QuadsAreTheLeastWhole(g: Graph, iri: string)
    ensures QuadsOf(g, iri) <= g && IsWhole(g, iri, QuadsOf(g, iri))
    ensures forall part | IsWhole(g, iri, part) :: QuadsOf(g, iri) <= part
  {
    RootIsReachable(g, iri);
    forall t, t' | t in QuadsOf(g, iri) && t' in g && t.obj == Resource(t'.subj) && Follows(iri, t.obj)
      ensures t' in QuadsOf(g, iri)
    {
      StepIsReachable(g, iri, t);
    }
    forall part | IsWhole(g, iri, part)
      ensures QuadsOf(g, iri) <= part
    {
      WholePartsHoldTheQuads(g, iri, part);
    }
  }

  lemma WholePartsHoldTheQuads(g: Graph, iri: string, part: Graph)
    requires IsWhole(g, iri, part)
    ensures QuadsOf(g, iri) <= part
  {
    // The nodes all of whose statements are taken.
    var taken := set n | n in Nodes(g, iri) && forall t | t in g && t.subj == n :: t in part;
    forall t | t in g && Reachable(g, iri, t.subj)
      ensures t in part
    {
      var way :| IsWay(g, iri, way) && way[|way| - 1] == t.subj;
      ClosedSetsHoldTheReachable(g, iri, taken, way);
    }
  }

  // ── The traversal ─────────────────────────────────────────────────────────

  function Nodes(g: Graph, iri: string): set<Node> {
    {Iri(iri)} + (set t | t in g && t.obj.Resource? :: t.obj.node)
  }

  ghost predicate NoDuplicates(quads: seq<Triple>) {
    forall i, j | 0 <= i < j < |quads| :: quads[i] != quads[j]
  }

  /** Read the quads with subject `node`, in any order; the nodes to follow go on `todo`. */
  method Expand(g: Graph, iri: string, node: Node, todo: seq<Node>) returns (quads: seq<Triple>, todo': seq<Node>)
    ensures NoDuplicates(quads) && forall t :: t in quads <==> t in g && t.subj == node
    ensures todo <= todo'
    ensures forall n | n in todo' ::
              n in todo || exists t :: t in g && t.subj == node && Follows(iri, t.obj) && t.obj.node == n
    ensures forall t | t in g && t.subj == node && Follows(iri, t.obj) :: t.obj.node in todo'
  {
    quads, todo' := [], todo;
    var rest := set t | t in g && t.subj == node;
    while rest != {}
      invariant rest <= set t | t in g && t.subj == node
      invariant NoDuplicates(quads) && forall t :: t in quads <==> t in g && t.subj == node && t !in rest
      invariant todo <= todo'
      invariant forall n | n in todo' ::
                  n in todo || exists t :: t in g && t.subj == node && Follows(iri, t.obj) && t.obj.node == n
      invariant forall t | t in quads && Follows(iri, t.obj) :: t.obj.node in todo'
      decreases rest
    {
      var q :| q in rest;
      rest := rest - {q};
      if Follows(iri, q.obj) {
        todo' := todo' + [q.obj.node];
      }
      quads := quads + [q];
    }
  }

  /** What can be reached from the set node, nothing twice, on any graph, cyclic or not. */
  method SetQuads(g: Graph, iri: string) returns (out: seq<Triple>)
    ensures NoDuplicates(out)
    ensures forall t :: t in out <==> t in QuadsOf(g, iri)
  {
    out := [];
    var seen: set<Node> := {};
    var todo := [Iri(iri)];
    RootIsReachable(g, iri);
    while todo != []
      invariant seen <= Nodes(g, iri) && forall n | n in todo :: n in Nodes(g, iri)
      invariant forall n | n in seen :: Reachable(g, iri, n)
      invariant forall n | n in todo :: Reachable(g, iri, n)
      invariant Iri(iri) in seen || Iri(iri) in todo
      invariant forall t | t in g && t.subj in seen && Follows(iri, t.obj) :: t.obj.node in seen || t.obj.node in todo
      invariant NoDuplicates(out) && forall t :: t in out <==> t in g && t.subj in seen
      decreases Nodes(g, iri) - seen, |todo|
    {
      var node := todo[|todo| - 1];
      ghost var before := todo;
      todo := todo[..|todo| - 1];
      assert before == todo + [node];
      if node !in seen {
        seen := seen + {node};
        var quads;
        ghost var waiting := todo;
        quads, todo := Expand(g, iri, node, todo);
        forall n | n in todo
          ensures Reachable(g, iri, n) && n in Nodes(g, iri)
        {
          if n !in waiting {
            var t :| t in g && t.subj == node && Follows(iri, t.obj) && t.obj.node == n;
            StepIsReachable(g, iri, t);
          }
        }
        out := out + quads;
      }
    }
    forall t | t in g && Reachable(g, iri, t.subj)
      ensures t.subj in seen
    {
      var way :| IsWay(g, iri, way) && way[|way| - 1] == t.subj;
      ClosedSetsHoldTheReachable(g, iri, seen, way);
    }
  }

  // ── Changing the graph ────────────────────────────────────────────────────

  datatype QuadOp = Add(t: Triple) | Remove(t: Triple)

  function ApplyOp(g: Graph, op: QuadOp): Graph {
    match op
    case Add(t) => g + {t}
    case Remove(t) => g - {t}
  }

  /** The operations in order: the last one on a quad wins. */
  function ApplyOps(g: Graph, ops: seq<QuadOp>): Graph {
    if ops == [] then g else ApplyOp(ApplyOps(g, ops[..|ops| - 1]), ops[|ops| - 1])
  }

  function Removals(quads: seq<Triple>): seq<QuadOp> {
    seq(|quads|, i requires 0 <= i < |quads| => Remove(quads[i]))
  }

  function Additions(quads: seq<Triple>): seq<QuadOp> {
    seq(|quads|, i requires 0 <= i < |quads| => Add(quads[i]))
  }

  lemma {:induction false} OpsInTwoParts(g: Graph, a: seq<QuadOp>, b: seq<QuadOp>)
    ensures ApplyOps(g, a + b) == ApplyOps(ApplyOps(g, a), b)
  {
    if b == [] {
      assert a + b == a;
    } else {
      assert (a + b)[..|a + b| - 1] == a + b[..|b| - 1];
      OpsInTwoParts(g, a, b[..|b| - 1]);
    }
  }

  lemma {:induction false} RemovalsRemove(g: Graph, quads: seq<Triple>)
    ensures ApplyOps(g, Removals(quads)) == g - set t | t in quads
  {
    if quads != [] {
      var prefix := quads[..|quads| - 1];
      assert quads == prefix + [quads[|quads| - 1]];
      assert Removals(quads)[..|quads| - 1] == Removals(prefix);
      RemovalsRemove(g, prefix);
    }
  }

  lemma {:induction false} AdditionsAdd(g: Graph, quads: seq<Triple>)
    ensures ApplyOps(g, Additions(quads)) == g + set t | t in quads
  {
    if quads != [] {
      var prefix := quads[..|quads| - 1];
      assert quads == prefix + [quads[|quads| - 1]];
      assert Additions(quads)[..|quads| - 1] == Additions(prefix);
      AdditionsAdd(g, prefix);
    }
  }

  /** The graph after a set is replaced: its old quads out, then the new ones in. */
  ghost function Written(g: Graph, iri: string, triples: Graph): Graph {
    (g - QuadsOf(g, iri)) + triples
  }

  /** The managed graph of a dataset, in the store. */
  class ManagedGraph {
    var graph: Graph

    constructor ()
      ensures graph == {}
    {
      graph := {};
    }

    /** The old quads of the set go, then `triples` come; a triple in both stays. */
    method WriteSet(iri: string, triples: seq<Triple>)
      modifies this
      ensures graph == Written(old(graph), iri, set t | t in triples)
    {
      var quads := SetQuads(graph, iri);
      var ops := Removals(quads) + Additions(triples);
      OpsInTwoParts(graph, Removals(quads), Additions(triples));
      RemovalsRemove(graph, quads);
      AdditionsAdd(ApplyOps(graph, Removals(quads)), triples);
      graph := ApplyOps(graph, ops);
    }

    /** The quads of the set go, and nothing comes. `found` tells whether there were any. */
    method RemoveSet(iri: string) returns (found: bool)
      modifies this
      ensures graph == Written(old(graph), iri, {})
      ensures found <==> QuadsOf(old(graph), iri) != {}
    {
      var quads := SetQuads(graph, iri);
      if quads == [] {
        assert QuadsOf(graph, iri) == {} by {
          assert forall t :: t !in QuadsOf(graph, iri);
        }
        return false;
      }
      assert quads[0] in QuadsOf(graph, iri);
      RemovalsRemove(graph, quads);
      graph := ApplyOps(graph, Removals(quads));
      found := true;
    }
  }

  // ── A graph of several sets ───────────────────────────────────────────────

  /** Every triple of a set can be reached from the set node within the set. */
  ghost predicate WellFormed(iri: string, triples: Graph) {
    triples != {} && forall t | t in triples :: Reachable(triples, iri, t.subj)
  }

  predicate MentionsNode(t: Triple, n: Node) {
    t.subj == n || t.obj == Resource(n)
  }

  /** Two sets: IRIs of one length, and no blank node in common. */
  ghost predicate Apart(iri: string, triples: Graph, iri': string, triples': Graph) {
    && |iri| == |iri'|
    && forall t, t', b | t in triples && t' in triples' && MentionsNode(t, Blank(b)) :: !MentionsNode(t', Blank(b))
  }

  /** Rule sets by IRI, each well-formed, every two apart. */
  ghost predicate Managed(sets: map<string, Graph>) {
    && (forall iri {:trigger WellFormed(iri, sets[iri])} | iri in sets :: WellFormed(iri, sets[iri]))
    && forall iri, iri' {:trigger Apart(iri, sets[iri], iri', sets[iri'])}
         | iri in sets && iri' in sets && iri != iri' ::
         Apart(iri, sets[iri], iri', sets[iri'])
  }

  /** The managed graph: all the sets together. */
  function Union(sets: map<string, Graph>): Graph {
    set iri, t | iri in sets && t in sets[iri] :: t
  }

  /** The subjects of a set are blank nodes or IRIs under the set's IRI. */
  lemma SubjectsAreUnderTheSet(iri: string, triples: Graph, t: Triple)
    requires WellFormed(iri, triples) && t in triples
    ensures t.subj.Iri? ==> iri <= t.subj.iri
  {
    var way :| IsWay(triples, iri, way) && way[|way| - 1] == t.subj;
    if |way| > 1 {
      assert Edge(triples, iri, way[|way| - 2], way[|way| - 1]);
    }
  }

  /** IRIs of one length cannot both prefix the same IRI. */
  lemma OnePrefix(a: string, b: string, s: string)
    requires |a| == |b| && a <= s && b <= s
    ensures a == b
  {
    assert a == s[..|a|] && b == s[..|b|];
  }

  lemma NoPrefix(a: string, b: string)
    requires |a| == |b| && a != b
    ensures !(a <= b)
  {
  }

  lemma SetsAreApart(sets: map<string, Graph>, iri: string, other: string)
    requires Managed(sets) && iri in sets && other in sets && iri != other
    ensures Apart(iri, sets[iri], other, sets[other])
  {
  }

  /** A triple whose subject a set owns is the set's. */
  lemma SubjectsBelongToOneSet(sets: map<string, Graph>, iri: string, t: Triple, n: Node)
    requires Managed(sets) && iri in sets && t in Union(sets) && t.subj == n
    requires if n.Iri? then iri <= n.iri else exists own :: own in sets[iri] && MentionsNode(own, n)
    ensures t in sets[iri]
  {
    var other :| other in sets && t in sets[other];
    if n.Iri? {
      SubjectsAreUnderTheSet(other, sets[other], t);
      if other != iri {
        SetsAreApart(sets, iri, other);
        OnePrefix(iri, other, n.iri);
      }
    } else {
      var own :| own in sets[iri] && MentionsNode(own, n);
      assert MentionsNode(t, n);
      if other != iri {
        SetsAreApart(sets, iri, other);
      }
    }
  }

  /** A way from the set node in the whole graph stays in the set. */
  lemma {:induction false} WaysStayInTheSet(sets: map<string, Graph>, iri: string, way: seq<Node>)
    requires Managed(sets) && iri in sets && IsWay(Union(sets), iri, way)
    ensures var n := way[|way| - 1];
            if n.Iri? then iri <= n.iri else exists own :: own in sets[iri] && MentionsNode(own, n)
  {
    if |way| > 1 {
      var shorter := way[..|way| - 1];
      assert IsWay(Union(sets), iri, shorter);
      WaysStayInTheSet(sets, iri, shorter);
      assert Edge(Union(sets), iri, way[|way| - 2], way[|way| - 1]);
      var t :| t in Union(sets) && t.subj == way[|way| - 2] && t.obj == Resource(way[|way| - 1]) && Follows(iri, t.obj);
      SubjectsBelongToOneSet(sets, iri, t, t.subj);
      assert MentionsNode(t, way[|way| - 1]);
    }
  }

  lemma WaysInLargerGraphs(g: Graph, g': Graph, iri: string, n: Node)
    requires g <= g' && Reachable(g, iri, n)
    ensures Reachable(g', iri, n)
  {
    var way :| IsWay(g, iri, way) && way[|way| - 1] == n;
    forall i | 0 <= i < |way| - 1
      ensures Edge(g', iri, way[i], way[i + 1])
    {
      assert Edge(g, iri, way[i], way[i + 1]);
    }
    assert IsWay(g', iri, way);
  }

  /** Reading a set from the managed graph gives the set, all of it and nothing else. */
  lemma ReadingGivesTheSet(sets: map<string, Graph>, iri: string)
    requires Managed(sets) && iri in sets
    ensures QuadsOf(Union(sets), iri) == sets[iri]
  {
    forall t | t in Union(sets) && Reachable(Union(sets), iri, t.subj)
      ensures t in sets[iri]
    {
      var way :| IsWay(Union(sets), iri, way) && way[|way| - 1] == t.subj;
      WaysStayInTheSet(sets, iri, way);
      SubjectsBelongToOneSet(sets, iri, t, t.subj);
    }
    assert WellFormed(iri, sets[iri]);
    forall t | t in sets[iri]
      ensures t in QuadsOf(Union(sets), iri)
    {
      WaysInLargerGraphs(sets[iri], Union(sets), iri, t.subj);
    }
  }

  /** Reading a set that is not there gives nothing. */
  lemma ReadingAnAbsentSet(sets: map<string, Graph>, iri: string)
    requires Managed(sets) && iri !in sets && forall other | other in sets :: |other| == |iri|
    ensures QuadsOf(Union(sets), iri) == {}
  {
    forall t | t in Union(sets)
      ensures t.subj != Iri(iri)
    {
      var other :| other in sets && t in sets[other];
      SubjectsAreUnderTheSet(other, sets[other], t);
      NoPrefix(other, iri);
    }
    forall way | IsWay(Union(sets), iri, way)
      ensures way[|way| - 1] == Iri(iri)
    {
      ClosedSetsHoldTheReachable(Union(sets), iri, {Iri(iri)}, way);
    }
  }

  /** Replacing or adding a set leaves exactly its new triples, even where they overlap the
      old ones, beside the triples of the other sets. */
  lemma WritingReplacesOneSet(sets: map<string, Graph>, iri: string, triples: Graph)
    requires Managed(sets) && Managed(sets[iri := triples])
    ensures Written(Union(sets), iri, triples) == Union(sets[iri := triples])
    ensures QuadsOf(Written(Union(sets), iri, triples), iri) == triples
  {
    if iri in sets {
      ReadingGivesTheSet(sets, iri);
      SetsAreDisjoint(sets, iri);
    } else {
      IrisOfOneLength(sets[iri := triples], iri);
      ReadingAnAbsentSet(sets, iri);
    }
    UnionAfterWrite(sets, iri, triples);
    ReadingGivesTheSet(sets[iri := triples], iri);
  }

  /** Writing a set leaves the other sets as they were. */
  lemma WritingLeavesTheOthers(sets: map<string, Graph>, iri: string, triples: Graph, other: string)
    requires Managed(sets) && Managed(sets[iri := triples]) && other in sets && other != iri
    ensures QuadsOf(Written(Union(sets), iri, triples), other) == QuadsOf(Union(sets), other) == sets[other]
  {
    WritingReplacesOneSet(sets, iri, triples);
    ReadingGivesTheSet(sets, other);
    ReadingGivesTheSet(sets[iri := triples], other);
  }

  lemma SetsAreDisjoint(sets: map<string, Graph>, iri: string)
    requires Managed(sets) && iri in sets
    ensures forall other, t | other in sets && other != iri && t in sets[other] :: t !in sets[iri]
  {
    forall other, t | other in sets && other != iri && t in sets[other]
      ensures t !in sets[iri]
    {
      SubjectsAreUnderTheSet(other, sets[other], t);
      assert MentionsNode(t, t.subj);
      if t in sets[iri] {
        SubjectsAreUnderTheSet(iri, sets[iri], t);
        SetsAreApart(sets, iri, other);
        if t.subj.Iri? {
          OnePrefix(iri, other, t.subj.iri);
        }
      }
    }
  }

  lemma UnionAfterWrite(sets: map<string, Graph>, iri: string, triples: Graph)
    requires iri in sets ==> forall other, t | other in sets && other != iri && t in sets[other] :: t !in sets[iri]
    ensures Union(sets[iri := triples]) == (Union(sets) - (if iri in sets then sets[iri] else {})) + triples
  {
    var after, old_ := sets[iri := triples], if iri in sets then sets[iri] else {};
    forall t | t in Union(after)
      ensures t in (Union(sets) - old_) + triples
    {
      var other :| other in after && t in after[other];
      if other != iri {
        assert other in sets && t in sets[other];
      }
    }
    forall t | t in (Union(sets) - old_) + triples
      ensures t in Union(after)
    {
      if t in triples {
        assert iri in after && t in after[iri];
      } else {
        var other :| other in sets && t in sets[other];
        assert other != iri && other in after && t in after[other];
      }
    }
  }

  lemma UnionWithout(sets: map<string, Graph>, iri: string)
    requires iri in sets && forall other, t | other in sets && other != iri && t in sets[other] :: t !in sets[iri]
    ensures Union(sets - {iri}) == Union(sets) - sets[iri]
  {
    var after := sets - {iri};
    forall t | t in Union(after)
      ensures t in Union(sets) - sets[iri]
    {
      var other :| other in after && t in after[other];
      assert other in sets && t in sets[other];
    }
    forall t | t in Union(sets) - sets[iri]
      ensures t in Union(after)
    {
      var other :| other in sets && t in sets[other];
      assert other in after && t in after[other];
    }
  }

  lemma ManagedWithout(sets: map<string, Graph>, iri: string)
    requires Managed(sets)
    ensures Managed(sets - {iri})
  {
  }

  /** Removing a set drops its quads, and says whether it was there. */
  lemma RemovingDropsOneSet(sets: map<string, Graph>, iri: string)
    requires Managed(sets) && forall other | other in sets :: |other| == |iri|
    ensures Written(Union(sets), iri, {}) == Union(sets - {iri})
    ensures QuadsOf(Union(sets), iri) != {} <==> iri in sets
  {
    if iri in sets {
      ReadingGivesTheSet(sets, iri);
      SetsAreDisjoint(sets, iri);
      UnionWithout(sets, iri);
      assert WellFormed(iri, sets[iri]);
    } else {
      ReadingAnAbsentSet(sets, iri);
      assert sets - {iri} == sets;
    }
  }

  /** Removing a set leaves the other sets as they were. */
  lemma RemovingLeavesTheOthers(sets: map<string, Graph>, iri: string, other: string)
    requires Managed(sets) && (forall other | other in sets :: |other| == |iri|) && other in sets && other != iri
    ensures QuadsOf(Written(Union(sets), iri, {}), other) == QuadsOf(Union(sets), other) == sets[other]
  {
    ReadingGivesTheSet(sets, other);
    assert QuadsOf(Written(Union(sets), iri, {}), other) == sets[other] by {
      RemovingDropsOneSet(sets, iri);
      ManagedWithout(sets, iri);
      ReadingGivesTheSet(sets - {iri}, other);
    }
  }

  lemma IrisOfOneLength(sets: map<string, Graph>, iri: string)
    requires Managed(sets) && iri in sets
    ensures forall other | other in sets :: |other| == |iri|
  {
    forall other | other in sets && other != iri
      ensures |other| == |iri|
    {
      assert Apart(other, sets[other], iri, sets[iri]);
    }
  }

  /** Writing a new set and removing it restores the graph. */
  lemma RemovingUndoesWriting(sets: map<string, Graph>, iri: string, triples: Graph)
    requires Managed(sets) && Managed(sets[iri := triples]) && iri !in sets
    ensures Written(Written(Union(sets), iri, triples), iri, {}) == Union(sets)
  {
    var after := sets[iri := triples];
    assert Written(Union(sets), iri, triples) == Union(after) by {
      WritingReplacesOneSet(sets, iri, triples);
    }
    assert Written(Union(after), iri, {}) == Union(after - {iri}) by {
      IrisOfOneLength(after, iri);
      RemovingDropsOneSet(after, iri);
    }
    assert after - {iri} == sets;
  }

  /** One length is needed: a set whose IRI is under another's can be read, and so removed,
      with it. */
  lemma LongerIrisLeak()
    ensures var sets := map["s" := {Triple(Iri("s"), "p", Resource(Iri("s1")))},
                            "s1" := {Triple(Iri("s1"), "p", Resource(Iri("x")))}];
            && WellFormed("s", sets["s"]) && WellFormed("s1", sets["s1"])
            && sets["s1"] <= QuadsOf(Union(sets), "s")
  {
    var a, b := Triple(Iri("s"), "p", Resource(Iri("s1"))), Triple(Iri("s1"), "p", Resource(Iri("x")));
    var sets := map["s" := {a}, "s1" := {b}];
    RootIsReachable({a}, "s");
    RootIsReachable({b}, "s1");
    assert a in sets["s"] && b in sets["s1"];
    RootIsReachable(Union(sets), "s");
    assert "s" == "s1"[..1];
    StepIsReachable(Union(sets), "s", a);
  }
}
