/** Blank nodes belong to the subjects they hang from. The trees this makes, the roots found
    for them with a memo, and the one role of all quads of a tree. */
module SubjectTrees {
  import opened Rdf
  import opened Vocabularies

  // ── Subject trees ─────────────────────────────────────────────────────────

  /** The subject that owns each blank node: the one of the first quad it is the object of. */
  type Owner = map<string, Node>

  function OwnerOf(quads: seq<Triple>): Owner {
    if quads == [] then map[]
    else
      var owner, q := OwnerOf(quads[..|quads| - 1]), quads[|quads| - 1];
      if q.obj.Resource? && q.obj.node.Blank? && q.obj.node.name !in owner then owner[q.obj.node.name := q.subj]
      else owner
  }

  lemma {:induction false} FirstQuadOwns(quads: seq<Triple>, b: string, i: nat)
    requires i < |quads| && quads[i].obj == Resource(Blank(b))
    requires forall j | 0 <= j < i :: quads[j].obj != Resource(Blank(b))
    ensures b in OwnerOf(quads) && OwnerOf(quads)[b] == quads[i].subj
  {
    if i == |quads| - 1 {
      NobodyOwns(quads[..i], b);
    } else {
      FirstQuadOwns(quads[..|quads| - 1], b, i);
    }
  }

  lemma {:induction false} NobodyOwns(quads: seq<Triple>, b: string)
    requires forall j | 0 <= j < |quads| :: quads[j].obj != Resource(Blank(b))
    ensures b !in OwnerOf(quads)
  {
    if quads != [] {
      NobodyOwns(quads[..|quads| - 1], b);
    }
  }

  function Parent(owner: Owner, n: Node): Node {
    if n.Blank? && n.name in owner then owner[n.name] else n
  }

  /** The node `k` steps up the ownership chain. */
  function Chase(owner: Owner, n: Node, k: nat): Node
    decreases k
  {
    if k == 0 then n else Chase(owner, Parent(owner, n), k - 1)
  }

  /** Two nodes are in one tree when their ownership chains meet. */
  ghost predicate SameTree(owner: Owner, n: Node, m: Node) {
    exists i: nat, j: nat :: Chase(owner, n, i) == Chase(owner, m, j)
  }

  lemma {:induction false} ChaseSplit(owner: Owner, n: Node, i: nat, j: nat)
    ensures Chase(owner, n, i + j) == Chase(owner, Chase(owner, n, i), j)
    decreases i
  {
    if i > 0 {
      ChaseSplit(owner, Parent(owner, n), i - 1, j);
    }
  }

  lemma SameTreeReflexive(owner: Owner, n: Node)
    ensures SameTree(owner, n, n)
  {
    assert Chase(owner, n, 0) == Chase(owner, n, 0);
  }

  lemma SameTreeTransitive(owner: Owner, n: Node, m: Node, l: Node)
    requires SameTree(owner, n, m) && SameTree(owner, m, l)
    ensures SameTree(owner, n, l)
  {
    var i: nat, j: nat :| Chase(owner, n, i) == Chase(owner, m, j);
    var k: nat, h: nat :| Chase(owner, m, k) == Chase(owner, l, h);
    ChaseSplit(owner, n, i, k);
    ChaseSplit(owner, m, j, k);
    ChaseSplit(owner, m, k, j);
    ChaseSplit(owner, l, h, j);
    assert Chase(owner, n, i + k) == Chase(owner, l, h + j);
  }

  lemma SameTreeSymmetric(owner: Owner, n: Node, m: Node)
    ensures SameTree(owner, n, m) <==> SameTree(owner, m, n)
  {
  }

  lemma ChaseInTree(owner: Owner, n: Node, k: nat)
    ensures SameTree(owner, n, Chase(owner, n, k))
  {
    assert Chase(owner, n, k) == Chase(owner, Chase(owner, n, k), 0);
  }

  /** A named node, and a blank node nobody owns, end their chain. */
  lemma {:induction false} EndedChain(owner: Owner, n: Node, k: nat)
    requires Parent(owner, n) == n
    ensures Chase(owner, n, k) == n
    decreases k
  {
    if k > 0 {
      EndedChain(owner, n, k - 1);
    }
  }

  /** A tree has at most one named root. */
  lemma OneNamedRoot(owner: Owner, n: Node, a: string, b: string)
    requires SameTree(owner, n, Iri(a)) && SameTree(owner, n, Iri(b))
    ensures a == b
  {
    SameTreeSymmetric(owner, n, Iri(a));
    SameTreeTransitive(owner, Iri(a), n, Iri(b));
    var i: nat, j: nat :| Chase(owner, Iri(a), i) == Chase(owner, Iri(b), j);
    EndedChain(owner, Iri(a), i);
    EndedChain(owner, Iri(b), j);
  }

  // ── Resolving blank nodes to roots ────────────────────────────────────────

  type Memo = map<string, Node>

  /** The memo holds the whole chain of each of its blank nodes. */
  ghost predicate HoldsChains(owner: Owner, memo: Memo) {
    forall b | b in memo && b in owner && owner[b].Blank? :: owner[b].name in memo
  }

  /** `root` is what `memo` gives the tree of `n`, and the tree's named node if it has one. */
  ghost predicate IsRootOf(owner: Owner, memo: Memo, n: Node, root: Node) {
    && SameTree(owner, n, root)
    && (forall c | c in memo && SameTree(owner, n, Blank(c)) :: memo[c] == root)
    && (forall iri | SameTree(owner, n, Iri(iri)) :: root == Iri(iri))
  }

  /** The memo is complete along chains and gives every tree one root, in the tree. */
  ghost predicate MemoOk(owner: Owner, memo: Memo) {
    HoldsChains(owner, memo) && forall b | b in memo :: IsRootOf(owner, memo, Blank(b), memo[b])
  }

  lemma {:induction false} MemoisedChain(owner: Owner, memo: Memo, b: string, k: nat)
    requires HoldsChains(owner, memo) && b in memo
    ensures Chase(owner, Blank(b), k).Blank? ==> Chase(owner, Blank(b), k).name in memo
    decreases k
  {
    if k > 0 {
      var p := Parent(owner, Blank(b));
      if p.Blank? {
        MemoisedChain(owner, memo, p.name, k - 1);
      } else {
        EndedChain(owner, p, k - 1);
      }
    }
  }

  /** `path` is the beginning of the ownership chain of its first node. */
  ghost predicate IsPath(owner: Owner, path: seq<string>) {
    && path != []
    && forall k | 0 <= k < |path| - 1 :: path[k] in owner && owner[path[k]] == Blank(path[k + 1])
  }

  lemma {:induction false} PathIsChain(owner: Owner, path: seq<string>, i: nat, k: nat)
    requires IsPath(owner, path) && i + k < |path|
    ensures Chase(owner, Blank(path[i]), k) == Blank(path[i + k])
    decreases k
  {
    if k > 0 {
      PathIsChain(owner, path, i + 1, k - 1);
    }
  }

  /** The chain never leaves a path whose last node leads back into it, or nowhere. */
  lemma {:induction false} ClosedPathHoldsChain(owner: Owner, path: seq<string>, i: nat, k: nat)
    requires IsPath(owner, path) && i < |path|
    requires exists j | 0 <= j < |path| :: Parent(owner, Blank(path[|path| - 1])) == Blank(path[j])
    ensures exists j | 0 <= j < |path| :: Chase(owner, Blank(path[i]), k) == Blank(path[j])
    decreases k
  {
    if k > 0 {
      var j :| 0 <= j < |path| && Parent(owner, Blank(path[|path| - 1])) == Blank(path[j]);
      if i < |path| - 1 {
        j := i + 1;
      }
      ClosedPathHoldsChain(owner, path, j, k - 1);
    }
  }

  /** How the chase of `path` ended: at a named owner, at a node resolved before, or with
      a path that holds the whole chain. */
  ghost predicate ChaseEnded(owner: Owner, memo: Memo, path: seq<string>, root: Node)
    requires IsPath(owner, path)
  {
    var last := Parent(owner, Blank(path[|path| - 1]));
    || (last.Iri? && root == last)
    || (last.Blank? && last.name in memo && root == memo[last.name])
    || ((exists j | 0 <= j < |path| :: last == Blank(path[j])) && root.Blank? && root.name in path)
  }

  lemma PathInTree(owner: Owner, path: seq<string>, i: nat)
    requires IsPath(owner, path) && i < |path|
    ensures SameTree(owner, Blank(path[0]), Blank(path[i]))
    ensures SameTree(owner, Blank(path[i]), Parent(owner, Blank(path[|path| - 1])))
  {
    PathIsChain(owner, path, 0, i);
    ChaseInTree(owner, Blank(path[0]), i);
    var k := |path| - 1 - i;
    PathIsChain(owner, path, i, k);
    ChaseSplit(owner, Blank(path[i]), k, 1);
    ChaseInTree(owner, Blank(path[i]), k + 1);
  }

  /** A path that holds its whole chain meets nothing the memo knows, and no named node. */
  lemma ClosedPathIsApart(owner: Owner, memo: Memo, path: seq<string>, i: nat, n: Node)
    requires HoldsChains(owner, memo) && IsPath(owner, path) && i < |path|
    requires forall p | p in path :: p !in memo
    requires exists j | 0 <= j < |path| :: Parent(owner, Blank(path[|path| - 1])) == Blank(path[j])
    requires n.Blank? ==> n.name in memo
    ensures !SameTree(owner, Blank(path[i]), n)
  {
    forall k: nat, h: nat
      ensures Chase(owner, Blank(path[i]), k) != Chase(owner, n, h)
    {
      ClosedPathHoldsChain(owner, path, i, k);
      if n.Blank? {
        MemoisedChain(owner, memo, n.name, h);
      } else {
        EndedChain(owner, n, h);
      }
    }
  }

  /** What is the root of one node of a tree is the root of every other. */
  lemma RootOfTheTree(owner: Owner, memo: Memo, n: Node, m: Node, root: Node)
    requires SameTree(owner, n, m) && IsRootOf(owner, memo, m, root)
    ensures IsRootOf(owner, memo, n, root)
  {
    SameTreeTransitive(owner, n, m, root);
    SameTreeSymmetric(owner, n, m);
    forall c | c in memo && SameTree(owner, n, Blank(c))
      ensures memo[c] == root
    {
      SameTreeTransitive(owner, m, n, Blank(c));
    }
    forall iri | SameTree(owner, n, Iri(iri))
      ensures root == Iri(iri)
    {
      SameTreeTransitive(owner, m, n, Iri(iri));
    }
  }

  lemma NamedRoot(owner: Owner, memo: Memo, iri: string)
    requires MemoOk(owner, memo)
    ensures IsRootOf(owner, memo, Iri(iri), Iri(iri))
  {
    SameTreeReflexive(owner, Iri(iri));
    forall c | c in memo && SameTree(owner, Iri(iri), Blank(c))
      ensures memo[c] == Iri(iri)
    {
      SameTreeSymmetric(owner, Iri(iri), Blank(c));
      assert IsRootOf(owner, memo, Blank(c), memo[c]);
    }
    forall other | SameTree(owner, Iri(iri), Iri(other))
      ensures Iri(iri) == Iri(other)
    {
      OneNamedRoot(owner, Iri(iri), iri, other);
    }
  }

  /** The root the chase ends with is the one root of the tree of `path`. */
  lemma RootIsCanonical(owner: Owner, memo: Memo, path: seq<string>, root: Node, i: nat)
    requires MemoOk(owner, memo) && IsPath(owner, path) && i < |path|
    requires forall p | p in path :: p !in memo
    requires ChaseEnded(owner, memo, path, root)
    ensures IsRootOf(owner, memo, Blank(path[i]), root)
  {
    var start, last := Blank(path[i]), Parent(owner, Blank(path[|path| - 1]));
    PathInTree(owner, path, i);
    if last.Iri? {
      NamedRoot(owner, memo, last.iri);
      RootOfTheTree(owner, memo, start, last, root);
    } else if last.name in memo && root == memo[last.name] {
      RootOfTheTree(owner, memo, start, last, root);
    } else {
      var j :| 0 <= j < |path| && path[j] == root.name;
      PathInTree(owner, path, j);
      SameTreeTransitive(owner, start, Blank(path[0]), root);
      forall n: Node | n.Blank? ==> n.name in memo
        ensures !SameTree(owner, start, n)
      {
        ClosedPathIsApart(owner, memo, path, i, n);
      }
    }
  }

  lemma MemoHoldsLongerChains(owner: Owner, memo: Memo, path: seq<string>, root: Node, memo': Memo)
    requires HoldsChains(owner, memo) && IsPath(owner, path)
    requires ChaseEnded(owner, memo, path, root)
    requires memo' == memo + (map p | p in path :: root)
    ensures HoldsChains(owner, memo')
  {
    forall b | b in path && b in owner && owner[b].Blank?
      ensures owner[b].name in memo'
    {
      var i :| 0 <= i < |path| && path[i] == b;
      if i < |path| - 1 {
        assert owner[b].name == path[i + 1];
      } else {
        assert owner[b] == Parent(owner, Blank(path[|path| - 1]));
      }
    }
  }

  lemma MemoExtends(owner: Owner, memo: Memo, path: seq<string>, root: Node, memo': Memo)
    requires MemoOk(owner, memo) && IsPath(owner, path)
    requires forall p | p in path :: p !in memo
    requires ChaseEnded(owner, memo, path, root)
    requires memo' == memo + (map p | p in path :: root)
    ensures MemoOk(owner, memo')
  {
    MemoHoldsLongerChains(owner, memo, path, root, memo');
    forall b | b in memo'
      ensures IsRootOf(owner, memo', Blank(b), memo'[b])
    {
      if b in path {
        var i :| 0 <= i < |path| && path[i] == b;
        RootIsCanonical(owner, memo, path, root, i);
      } else {
        assert IsRootOf(owner, memo, Blank(b), memo[b]);
        forall c | c in path && SameTree(owner, Blank(b), Blank(c))
          ensures root == memo[b]
        {
          var i :| 0 <= i < |path| && path[i] == c;
          RootIsCanonical(owner, memo, path, root, i);
          SameTreeSymmetric(owner, Blank(b), Blank(c));
        }
      }
    }
  }

  predicate LexLess(a: string, b: string) {
    b != [] && (a == [] || a[0] < b[0] || (a[0] == b[0] && LexLess(a[1..], b[1..])))
  }

  /** The least member of `path`. */
  function LeastOf(path: seq<string>): (m: string)
    requires path != []
    ensures m in path
  {
    if |path| == 1 then path[0]
    else
      var m := LeastOf(path[1..]);
      if LexLess(m, path[0]) then m else path[0]
  }

  function Elements(path: seq<string>): set<string> {
    set i | 0 <= i < |path| :: path[i]
  }

  /** The root of `start`, consistent with every root given out before: the chase stops at
      a named owner, at the end of the chain, at a node in the memo, or back on its own path,
      and all it passed enters the memo with the one root. */
  method Resolve(start: string, owner: Owner, memo: Memo) returns (root: Node, memo': Memo)
    requires MemoOk(owner, memo)
    ensures MemoOk(owner, memo')
    ensures start in memo' && memo'[start] == root
    ensures forall b | b in memo :: b in memo' && memo'[b] == memo[b]
  {
    if start in memo {
      return memo[start], memo;
    }
    var path := [start];
    var cur := start;
    while true
      invariant IsPath(owner, path) && path[0] == start && path[|path| - 1] == cur
      invariant forall p | p in path :: p !in memo
      invariant forall i, j | 0 <= i < j < |path| :: path[i] != path[j]
      decreases owner.Keys - Elements(path[..|path| - 1])
    {
      if cur !in owner {
        root := Blank(cur);
        break;
      }
      if owner[cur].Iri? {
        root := owner[cur];
        break;
      }
      var next := owner[cur].name;
      if next in memo {
        root := memo[next];
        break;
      }
      if next in path {
        root := Blank(LeastOf(path));
        break;
      }
      ghost var shorter := path;
      path := path + [next];
      assert path[..|path| - 1] == shorter;
      assert cur in owner.Keys - Elements(shorter[..|shorter| - 1]);
      cur := next;
    }
    memo' := memo + (map p | p in path :: root);
    MemoExtends(owner, memo, path, root, memo');
  }

  // ── Signals and verdicts ──────────────────────────────────────────────────

  /** What one quad says about its tree. Type-derived signals outrank predicate ones. */
  datatype TreeSignal =
    | ShapesSignal | EntailmentSignal
    | ModelType | VocabType | InstanceType
    | ModelPred | VocabPred
    | LinkPred
    | ProvType | ProvPred
    | CatalogType
    | ValuesType | ValuesPred
    | Neutral

  function TypeSignal(o: string): TreeSignal {
    if o == SH_NODE_SHAPE || o == SH_PROPERTY_SHAPE then ShapesSignal
    else if o == SWRL_IMP then EntailmentSignal
    else if o == SKOS_CONCEPT_SCHEME || o == SKOS_CONCEPT then VocabType
    else if o == SKOS_COLLECTION || o == SKOS_ORDERED_COLLECTION then ValuesType
    else if o in PROV_TYPES then ProvType
    else if o in CATALOG_TYPES then CatalogType
    else if o == OWL_NAMED_INDIVIDUAL then InstanceType
    else if o in SCHEMA_TYPE_OBJECTS then ModelType
    else InstanceType
  }

  function PredicateSignal(p: string): TreeSignal {
    if p == SH_TARGET_CLASS || SH_NS <= p then ShapesSignal
    else if p == SPIN_RULE || SP_NS <= p then EntailmentSignal
    else if p in LINK_PREDICATES then LinkPred
    else if p == SKOS_MEMBER || p == SKOS_MEMBER_LIST then ValuesPred
    else if SKOS_NS <= p then VocabPred
    else if PROV_NS <= p then ProvPred
    else if OWL_NS <= p || RDFS_NS <= p then ModelPred
    else Neutral
  }

  function SignalOf(q: Triple): TreeSignal {
    if q.pred == RDF_TYPE then
      if q.obj.Resource? && q.obj.node.Iri? then TypeSignal(q.obj.node.iri) else Neutral
    else PredicateSignal(q.pred)
  }

  /** How often each signal occurs in a tree. */
  type Tally = multiset<TreeSignal>

  function Add(t: Tally, s: TreeSignal): Tally {
    if s.Neutral? then t else t + multiset{s}
  }

  /** The verdict over a tree's tally: the first kind in order of precedence that the tally
      speaks for. Only where no type speaks do counts of predicates compete. */
  function Decide(t: Tally): GraphKind {
    if t[ShapesSignal] > 0 then Shapes
    else if t[EntailmentSignal] > 0 then Entailment
    else if t[ModelType] > 0 then Model
    else if t[CatalogType] > 0 then Catalog
    else if t[ProvType] > 0 then Provenance
    else if t[ValuesType] > 0 && t[VocabType] == 0 then DomainValues
    else if t[VocabType] > 0 then Vocabulary
    else if t[InstanceType] > 0 then Instances
    else if t[LinkPred] > 0 && t[LinkPred] >= t[ModelPred] + t[VocabPred] + t[ProvPred] then Linkset
    else if t[ProvPred] > 0 && t[ProvPred] >= t[ModelPred] + t[VocabPred] then Provenance
    else if t[ValuesPred] > 0 && t[VocabPred] == 0 then DomainValues
    else if t[VocabPred] > t[ModelPred] then Vocabulary
    else if t[ModelPred] > 0 then Model
    else Instances
  }

  /** The signals of the quads whose subject is in the tree of `n`. */
  ghost function TreeTally(owner: Owner, quads: seq<Triple>, n: Node): Tally {
    if quads == [] then multiset{}
    else
      var t, q := TreeTally(owner, quads[..|quads| - 1], n), quads[|quads| - 1];
      if SameTree(owner, q.subj, n) then Add(t, SignalOf(q)) else t
  }

  /** The role of a quad: the verdict over its subject's whole tree. */
  ghost function Role(quads: seq<Triple>, q: Triple): GraphKind {
    Decide(TreeTally(OwnerOf(quads), quads, q.subj))
  }

  // ── The classifier ────────────────────────────────────────────────────────

  method FindOwners(quads: seq<Triple>) returns (owner: Owner)
    ensures owner == OwnerOf(quads)
  {
    owner := map[];
    for k := 0 to |quads|
      invariant owner == OwnerOf(quads[..k])
    {
      assert quads[..k + 1][..k] == quads[..k];
      var o := quads[k].obj;
      if o.Resource? && o.node.Blank? && o.node.name !in owner {
        owner := owner[o.node.name := quads[k].subj];
      }
    }
    assert quads[..|quads|] == quads;
  }

  /** Roots tell trees apart: equal exactly when the subjects are in one tree. */
  ghost predicate RootsTellTrees(owner: Owner, quads: seq<Triple>, roots: seq<Node>)
    requires |roots| <= |quads|
  {
    forall i, j {:trigger SameTree(owner, quads[i].subj, quads[j].subj)} | 0 <= i < |roots| && 0 <= j < |roots| ::
      roots[i] == roots[j] <==> SameTree(owner, quads[i].subj, quads[j].subj)
  }

  lemma RootsOfMemoTellTrees(owner: Owner, memo: Memo, n: Node, m: Node, rootN: Node, rootM: Node)
    requires MemoOk(owner, memo) && IsRootOf(owner, memo, n, rootN) && IsRootOf(owner, memo, m, rootM)
    requires n.Blank? ==> n.name in memo
    ensures rootN == rootM <==> SameTree(owner, n, m)
  {
    SameTreeReflexive(owner, n);
    SameTreeSymmetric(owner, n, m);
    SameTreeSymmetric(owner, m, rootM);
    if rootN == rootM {
      SameTreeTransitive(owner, n, rootN, m);
    }
  }

  method FindRoots(quads: seq<Triple>, owner: Owner) returns (roots: seq<Node>)
    ensures |roots| == |quads| && RootsTellTrees(owner, quads, roots)
  {
    var memo: Memo := map[];
    roots := [];
    for k := 0 to |quads|
      invariant |roots| == k && MemoOk(owner, memo)
      invariant forall i | 0 <= i < k :: IsRootOf(owner, memo, quads[i].subj, roots[i])
      invariant forall i | 0 <= i < k :: quads[i].subj.Blank? ==> quads[i].subj.name in memo
    {
      ghost var before := memo;
      var root: Node;
      match quads[k].subj {
        case Iri(iri) =>
          root := quads[k].subj;
        case Blank(b) =>
          root, memo := Resolve(b, owner, memo);
      }
      roots := roots + [root];
      forall i | 0 <= i < k + 1
        ensures IsRootOf(owner, memo, quads[i].subj, roots[i])
      {
        if quads[i].subj.Iri? {
          NamedRoot(owner, memo, quads[i].subj.iri);
          if i < k {
            assert SameTree(owner, quads[i].subj, roots[i]);
            assert IsRootOf(owner, before, quads[i].subj, roots[i]);
            SameTreeReflexive(owner, quads[i].subj);
          }
        } else if i < k {
          SameTreeReflexive(owner, quads[i].subj);
          assert memo[quads[i].subj.name] == roots[i];
        }
      }
    }
    forall i, j | 0 <= i < |roots| && 0 <= j < |roots|
      ensures roots[i] == roots[j] <==> SameTree(owner, quads[i].subj, quads[j].subj)
    {
      RootsOfMemoTellTrees(owner, memo, quads[i].subj, quads[j].subj, roots[i], roots[j]);
    }
  }

  lemma TallyOfOneTree(owner: Owner, quads: seq<Triple>, n: Node, m: Node)
    requires SameTree(owner, n, m)
    ensures TreeTally(owner, quads, n) == TreeTally(owner, quads, m)
  {
    if quads != [] {
      TallyOfOneTree(owner, quads[..|quads| - 1], n, m);
      var s := quads[|quads| - 1].subj;
      SameTreeSymmetric(owner, n, m);
      if SameTree(owner, s, n) {
        SameTreeTransitive(owner, s, n, m);
      }
      if SameTree(owner, s, m) {
        SameTreeTransitive(owner, s, m, n);
      }
    }
  }

  lemma TallyStep(owner: Owner, quads: seq<Triple>, k: nat, n: Node)
    requires k < |quads|
    ensures TreeTally(owner, quads[..k + 1], n)
            == if SameTree(owner, quads[k].subj, n) then Add(TreeTally(owner, quads[..k], n), SignalOf(quads[k]))
               else TreeTally(owner, quads[..k], n)
  {
    assert quads[..k + 1][..k] == quads[..k];
  }

  function TallyAt(tallies: map<Node, Tally>, root: Node): Tally {
    if root in tallies then tallies[root] else multiset{}
  }

  /** The first `k` quads are tallied: under each quad's root, those of its tree. */
  ghost predicate Tallied(owner: Owner, quads: seq<Triple>, roots: seq<Node>, k: nat, tallies: map<Node, Tally>)
    requires |roots| == |quads| && k <= |quads|
  {
    && (forall i | 0 <= i < k :: roots[i] in tallies)
    && forall i {:trigger roots[i]} | 0 <= i < |quads| ::
         TreeTally(owner, quads[..k], quads[i].subj) == TallyAt(tallies, roots[i])
  }

  /** Counting quad `k` under its root keeps the tally of the tree of quad `i`. */
  lemma TallyCounts(owner: Owner, quads: seq<Triple>, roots: seq<Node>, k: nat, i: nat, tallies: map<Node, Tally>)
    requires |roots| == |quads| && RootsTellTrees(owner, quads, roots) && k < |quads| && i < |quads|
    requires TreeTally(owner, quads[..k], quads[i].subj) == TallyAt(tallies, roots[i])
    ensures TreeTally(owner, quads[..k + 1], quads[i].subj)
            == TallyAt(tallies[roots[k] := Add(TallyAt(tallies, roots[k]), SignalOf(quads[k]))], roots[i])
  {
    TallyStep(owner, quads, k, quads[i].subj);
  }

  lemma TalliedOneMore(owner: Owner, quads: seq<Triple>, roots: seq<Node>, k: nat, tallies: map<Node, Tally>)
    requires |roots| == |quads| && RootsTellTrees(owner, quads, roots) && k < |quads|
             && Tallied(owner, quads, roots, k, tallies)
    ensures Tallied(owner, quads, roots, k + 1,
                    tallies[roots[k] := Add(TallyAt(tallies, roots[k]), SignalOf(quads[k]))])
  {
    forall i {:trigger roots[i]} | 0 <= i < |quads|
      ensures TreeTally(owner, quads[..k + 1], quads[i].subj)
              == TallyAt(tallies[roots[k] := Add(TallyAt(tallies, roots[k]), SignalOf(quads[k]))], roots[i])
    {
      TallyCounts(owner, quads, roots, k, i, tallies);
    }
  }

  lemma AllTallied(owner: Owner, quads: seq<Triple>, roots: seq<Node>, tallies: map<Node, Tally>)
    requires |roots| == |quads| && Tallied(owner, quads, roots, |quads|, tallies)
    ensures forall i | 0 <= i < |quads| ::
              roots[i] in tallies && tallies[roots[i]] == TreeTally(owner, quads, quads[i].subj)
  {
    assert quads[..|quads|] == quads;
  }

  /** Tally the signals of every tree. */
  method TallyTrees(quads: seq<Triple>, roots: seq<Node>, ghost owner: Owner) returns (tallies: map<Node, Tally>)
    requires |roots| == |quads| && RootsTellTrees(owner, quads, roots)
    ensures forall i | 0 <= i < |quads| ::
              roots[i] in tallies && tallies[roots[i]] == TreeTally(owner, quads, quads[i].subj)
  {
    tallies := map[];
    for k := 0 to |quads|
      invariant Tallied(owner, quads, roots, k, tallies)
    {
      TalliedOneMore(owner, quads, roots, k, tallies);
      tallies := tallies[roots[k] := Add(TallyAt(tallies, roots[k]), SignalOf(quads[k]))];
    }
    AllTallied(owner, quads, roots, tallies);
  }

  /** The verdict of each quad's root, each decided once. */
  method DecideRoots(roots: seq<Node>, tallies: map<Node, Tally>) returns (roles: seq<GraphKind>)
    requires forall root | root in roots :: root in tallies
    ensures |roles| == |roots| && forall i | 0 <= i < |roots| :: roles[i] == Decide(tallies[roots[i]])
  {
    var decided: map<Node, GraphKind> := map[];
    roles := [];
    for k := 0 to |roots|
      invariant |roles| == k
      invariant forall r | r in decided && r in tallies :: decided[r] == Decide(tallies[r])
      invariant forall i | 0 <= i < k :: roles[i] == Decide(tallies[roots[i]])
    {
      if roots[k] !in decided {
        decided := decided[roots[k] := Decide(tallies[roots[k]])];
      }
      roles := roles + [decided[roots[k]]];
    }
  }

  /** Classify every quad by the verdict over its subject's tree. */
  method ClassifyQuadRoles(quads: seq<Triple>) returns (roles: seq<GraphKind>)
    ensures |roles| == |quads|
    ensures forall i | 0 <= i < |quads| :: roles[i] == Role(quads, quads[i])
  {
    var owner := FindOwners(quads);
    var roots := FindRoots(quads, owner);
    var tallies := TallyTrees(quads, roots, owner);
    roles := DecideRoots(roots, tallies);
  }
}
