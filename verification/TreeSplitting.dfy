/** Splitting a graph by the roles of its quads: when it cuts no blank-node structure, and
    that it does not depend on the order of the quads. */
module TreeSplitting {
  import opened Rdf
  import opened Vocabularies
  import opened SubjectTrees

  /** No blank node is mentioned in two parts of the split. */
  ghost predicate SafeSplit(quads: seq<Triple>) {
    forall q, q', b | q in quads && q' in quads && Mentions(q, b) && Mentions(q', b) ::
      Role(quads, q) == Role(quads, q')
  }

  /** Every two quads that mention one blank node have their subjects in one tree. */
  ghost predicate Coherent(quads: seq<Triple>) {
    forall q, q', b | q in quads && q' in quads && Mentions(q, b) && Mentions(q', b) ::
      SameTree(OwnerOf(quads), q.subj, q'.subj)
  }

  /** `b` is the object of `q`. */
  predicate HasObject(q: Triple, b: string) {
    q.obj == Resource(Blank(b))
  }

  /** Each blank node is the object of at most one subject. */
  predicate SingleOwner(quads: seq<Triple>) {
    forall q, q' | q in quads && q' in quads && q.obj.Resource? && q.obj == q'.obj && q.obj.node.Blank? ::
      q.subj == q'.subj
  }

  /** No blank node occurs inside a triple term. */
  predicate NoneQuoted(quads: seq<Triple>) {
    forall q | q in quads :: !q.obj.TripleTerm?
  }

  // ── Splitting never cuts a coherent graph ─────────────────────────────────

  lemma OneTreeOneRole(quads: seq<Triple>, q: Triple, q': Triple)
    requires SameTree(OwnerOf(quads), q.subj, q'.subj)
    ensures Role(quads, q) == Role(quads, q')
  {
    TallyOfOneTree(OwnerOf(quads), quads, q.subj, q'.subj);
  }

  /** Each blank node that is an object has an owner: a subject it is the object of. */
  lemma {:induction false} OwnersAreSubjects(quads: seq<Triple>, b: string)
    ensures b in OwnerOf(quads) <==> exists q :: q in quads && HasObject(q, b)
    ensures b in OwnerOf(quads) ==> exists q :: q in quads && HasObject(q, b) && q.subj == OwnerOf(quads)[b]
  {
    if quads != [] {
      var prefix, last := quads[..|quads| - 1], quads[|quads| - 1];
      OwnersAreSubjects(prefix, b);
      assert quads == prefix + [last];
      assert forall q :: q in quads <==> q in prefix || q == last;
      if b in OwnerOf(prefix) {
        var q :| q in prefix && HasObject(q, b) && q.subj == OwnerOf(prefix)[b];
        assert q in quads;
      } else if HasObject(last, b) {
        assert last in quads;
      }
    }
  }

  /** With one owner each, the owner of a blank node is the subject of every quad it is
      the object of. */
  lemma OwnerIsTheSubject(quads: seq<Triple>, q: Triple, b: string)
    requires SingleOwner(quads) && q in quads && HasObject(q, b)
    ensures b in OwnerOf(quads) && OwnerOf(quads)[b] == q.subj
  {
    OwnersAreSubjects(quads, b);
  }

  lemma MentionedInTree(quads: seq<Triple>, q: Triple, b: string)
    requires SingleOwner(quads) && NoneQuoted(quads) && q in quads && Mentions(q, b)
    ensures SameTree(OwnerOf(quads), q.subj, Blank(b))
  {
    var owner := OwnerOf(quads);
    if q.subj == Blank(b) {
      SameTreeReflexive(owner, q.subj);
    } else {
      OwnerIsTheSubject(quads, q, b);
      assert Chase(owner, Blank(b), 1) == Chase(owner, q.subj, 0);
    }
  }

  /** Whenever each blank node is the object of at most one subject (and none is quoted),
      no split cuts a blank-node structure: list spines, nested shapes of any depth and
      ownership cycles stay whole. */
  lemma SingleOwnersAreNeverSevered(quads: seq<Triple>)
    requires SingleOwner(quads) && NoneQuoted(quads)
    ensures Coherent(quads) && SafeSplit(quads)
  {
    var owner := OwnerOf(quads);
    forall q, q', b | q in quads && q' in quads && Mentions(q, b) && Mentions(q', b)
      ensures SameTree(owner, q.subj, q'.subj)
    {
      MentionedInTree(quads, q, b);
      MentionedInTree(quads, q', b);
      SameTreeSymmetric(owner, q'.subj, Blank(b));
      SameTreeTransitive(owner, q.subj, Blank(b), q'.subj);
    }
    CoherentSplitsAreSafe(quads);
  }

  lemma CoherentSplitsAreSafe(quads: seq<Triple>)
    requires Coherent(quads)
    ensures SafeSplit(quads)
  {
    forall q, q', b | q in quads && q' in quads && Mentions(q, b) && Mentions(q', b)
      ensures Role(quads, q) == Role(quads, q')
    {
      OneTreeOneRole(quads, q, q');
    }
  }

  // ── And may cut any other ─────────────────────────────────────────────────

  /** Same subjects and objects, quad by quad: the same trees under other predicates. */
  predicate SameShape(quads: seq<Triple>, quads': seq<Triple>) {
    |quads| == |quads'| && forall i | 0 <= i < |quads| ::
      quads[i].subj == quads'[i].subj && quads[i].obj == quads'[i].obj
  }

  lemma {:induction false} ShapeFixesOwners(quads: seq<Triple>, quads': seq<Triple>)
    requires SameShape(quads, quads')
    ensures OwnerOf(quads) == OwnerOf(quads')
  {
    if quads != [] {
      ShapeFixesOwners(quads[..|quads| - 1], quads'[..|quads| - 1]);
    }
  }

  lemma ShapeFixesCoherence(quads: seq<Triple>, quads': seq<Triple>)
    requires SameShape(quads, quads') && Coherent(quads)
    ensures Coherent(quads')
  {
    ShapeFixesOwners(quads, quads');
    forall q, q', b | q in quads' && q' in quads' && Mentions(q, b) && Mentions(q', b)
      ensures SameTree(OwnerOf(quads'), q.subj, q'.subj)
    {
      var i :| 0 <= i < |quads'| && quads'[i] == q;
      var j :| 0 <= j < |quads'| && quads'[j] == q';
      assert Mentions(quads[i], b) && Mentions(quads[j], b);
    }
  }

  /** The same shape, with a SHACL predicate on the tree of `n` and a neutral one elsewhere. */
  ghost function MarkTree(quads: seq<Triple>, owner: Owner, n: Node): seq<Triple> {
    seq(|quads|, i requires 0 <= i < |quads| =>
      Triple(quads[i].subj, if SameTree(owner, quads[i].subj, n) then SH_NS else "", quads[i].obj))
  }

  lemma MarkSignals(q: Triple)
    ensures q.pred == SH_NS ==> SignalOf(q) == ShapesSignal
    ensures q.pred == "" ==> SignalOf(q) == Neutral
  {
    assert |RDF_TYPE| > |SH_NS|;
    assert forall p | p in LINK_PREDICATES :: p != "";
  }

  /** `marked` has a SHACL predicate on the quads of the tree of `n`, and only there. */
  ghost predicate MarksTree(owner: Owner, marked: seq<Triple>, n: Node) {
    forall q | q in marked :: q.pred == if SameTree(owner, q.subj, n) then SH_NS else ""
  }

  lemma {:induction false} MarkedTally(owner: Owner, marked: seq<Triple>, n: Node, m: Node)
    requires MarksTree(owner, marked, n)
    ensures SameTree(owner, m, n) && (exists q :: q in marked && SameTree(owner, q.subj, m))
            ==> TreeTally(owner, marked, m)[ShapesSignal] > 0
    ensures !SameTree(owner, m, n) ==> TreeTally(owner, marked, m) == multiset{}
  {
    if marked != [] {
      var prefix, last := marked[..|marked| - 1], marked[|marked| - 1];
      assert marked == prefix + [last];
      MarkedTally(owner, prefix, n, m);
      MarkSignals(last);
      if SameTree(owner, last.subj, m) {
        SameTreeSymmetric(owner, last.subj, m);
        if SameTree(owner, m, n) {
          SameTreeTransitive(owner, last.subj, m, n);
        } else if SameTree(owner, last.subj, n) {
          SameTreeTransitive(owner, m, last.subj, n);
        }
      }
    }
  }

  /** Marking the tree of `n` makes it a shape and everything else instance data. */
  lemma MarkedRole(owner: Owner, marked: seq<Triple>, n: Node, q: Triple)
    requires owner == OwnerOf(marked) && q in marked && MarksTree(owner, marked, n)
    ensures Role(marked, q) == if SameTree(owner, q.subj, n) then Shapes else Instances
  {
    SameTreeReflexive(owner, q.subj);
    MarkedTally(owner, marked, n, q.subj);
  }

  lemma MarkTreeMarks(quads: seq<Triple>, n: Node)
    ensures SameShape(quads, MarkTree(quads, OwnerOf(quads), n))
    ensures MarksTree(OwnerOf(quads), MarkTree(quads, OwnerOf(quads), n), n)
  {
  }

  /** A split that marks the tree of one of two quads cuts them apart. */
  lemma MarkedSplit(marked: seq<Triple>, q: Triple, q': Triple, b: string)
    requires q in marked && q' in marked && Mentions(q, b) && Mentions(q', b)
    requires !SameTree(OwnerOf(marked), q'.subj, q.subj) && MarksTree(OwnerOf(marked), marked, q.subj)
    ensures !SafeSplit(marked)
  {
    var owner := OwnerOf(marked);
    SameTreeReflexive(owner, q.subj);
    MarkedRole(owner, marked, q.subj, q);
    MarkedRole(owner, marked, q.subj, q');
  }

  lemma IncoherentGraphsCanBeSevered(quads: seq<Triple>) returns (marked: seq<Triple>)
    requires !Coherent(quads)
    ensures SameShape(quads, marked) && !SafeSplit(marked)
  {
    var owner := OwnerOf(quads);
    var q, q', b :| q in quads && q' in quads && Mentions(q, b) && Mentions(q', b) && !SameTree(owner, q.subj, q'.subj);
    var i :| 0 <= i < |quads| && quads[i] == q;
    var j :| 0 <= j < |quads| && quads[j] == q';
    marked := MarkTree(quads, owner, q.subj);
    MarkTreeMarks(quads, q.subj);
    ShapeFixesOwners(quads, marked);
    SameTreeSymmetric(owner, q.subj, q'.subj);
    MarkedSplit(marked, marked[i], marked[j], b);
  }

  /** The exact condition: splitting is safe under every choice of predicates if and only
      if every two quads that mention one blank node have their subjects in one tree. */
  lemma SplitIsSafeExactlyWhenCoherent(quads: seq<Triple>)
    ensures Coherent(quads) <==> forall quads' | SameShape(quads, quads') :: SafeSplit(quads')
  {
    if Coherent(quads) {
      forall quads' | SameShape(quads, quads')
        ensures SafeSplit(quads')
      {
        ShapeFixesCoherence(quads, quads');
        CoherentSplitsAreSafe(quads');
      }
    } else {
      var marked := IncoherentGraphsCanBeSevered(quads);
    }
  }

  // ── The order of the quads does not matter ────────────────────────────────

  lemma SameOwners(quads: seq<Triple>, quads': seq<Triple>)
    requires SingleOwner(quads) && multiset(quads) == multiset(quads')
    ensures SingleOwner(quads') && OwnerOf(quads) == OwnerOf(quads')
  {
    assert forall q :: q in quads <==> q in multiset(quads);
    assert forall q :: q in quads' <==> q in multiset(quads');
    assert forall q :: q in quads <==> q in quads';
    forall b: string
      ensures b in OwnerOf(quads) <==> b in OwnerOf(quads')
      ensures b in OwnerOf(quads) ==> OwnerOf(quads)[b] == OwnerOf(quads')[b]
    {
      OwnersAreSubjects(quads, b);
      OwnersAreSubjects(quads', b);
    }
  }

  lemma TallyWithLast(owner: Owner, prefix: seq<Triple>, q: Triple, n: Node)
    ensures TreeTally(owner, prefix + [q], n)
            == if SameTree(owner, q.subj, n) then Add(TreeTally(owner, prefix, n), SignalOf(q))
               else TreeTally(owner, prefix, n)
  {
    assert (prefix + [q])[..|prefix|] == prefix;
  }

  lemma AddsCommute(t: Tally, a: TreeSignal, b: TreeSignal)
    ensures Add(Add(t, a), b) == Add(Add(t, b), a)
  {
  }

  /** Taking any one quad out of the tally. */
  lemma {:induction false} TallyWithout(owner: Owner, quads: seq<Triple>, n: Node, j: nat)
    requires j < |quads|
    ensures TreeTally(owner, quads, n)
            == var rest := TreeTally(owner, quads[..j] + quads[j + 1..], n);
               if SameTree(owner, quads[j].subj, n) then Add(rest, SignalOf(quads[j])) else rest
  {
    var k := |quads| - 1;
    if j < k {
      var prefix, last := quads[..k], quads[k];
      TallyWithout(owner, prefix, n, j);
      var rest := quads[..j] + quads[j + 1..];
      var rest' := prefix[..j] + prefix[j + 1..];
      assert rest == rest' + [last] && quads == prefix + [last];
      TallyWithLast(owner, prefix, last, n);
      TallyWithLast(owner, rest', last, n);
      AddsCommute(TreeTally(owner, rest', n), SignalOf(prefix[j]), SignalOf(last));
    } else {
      assert quads[..j] + quads[j + 1..] == quads[..k] && quads == quads[..k] + [quads[k]];
      TallyWithLast(owner, quads[..k], quads[k], n);
    }
  }

  lemma SamePieces(prefix: seq<Triple>, last: Triple, quads': seq<Triple>) returns (j: nat)
    requires multiset(prefix + [last]) == multiset(quads')
    ensures j < |quads'| && quads'[j] == last && multiset(quads'[..j] + quads'[j + 1..]) == multiset(prefix)
  {
    assert last in multiset(prefix + [last]);
    j :| 0 <= j < |quads'| && quads'[j] == last;
    assert quads' == quads'[..j] + [last] + quads'[j + 1..];
    assert multiset(quads'[..j] + quads'[j + 1..]) == multiset(quads') - multiset{last} == multiset(prefix);
  }

  lemma {:induction false} TallyOfPermutation(owner: Owner, quads: seq<Triple>, quads': seq<Triple>, n: Node)
    requires multiset(quads) == multiset(quads')
    ensures TreeTally(owner, quads, n) == TreeTally(owner, quads', n)
    decreases |quads|
  {
    if quads == [] {
      assert |multiset(quads')| == 0;
    } else {
      var prefix, last := quads[..|quads| - 1], quads[|quads| - 1];
      assert quads == prefix + [last];
      var j := SamePieces(prefix, last, quads');
      TallyOfPermutation(owner, prefix, quads'[..j] + quads'[j + 1..], n);
      TallyWithout(owner, quads', n, j);
      TallyWithLast(owner, prefix, last, n);
    }
  }

  /** Permuting the quads permutes the roles. */
  lemma RolesFollowPermutations(quads: seq<Triple>, quads': seq<Triple>, q: Triple)
    requires SingleOwner(quads) && multiset(quads) == multiset(quads')
    ensures Role(quads, q) == Role(quads', q)
  {
    SameOwners(quads, quads');
    TallyOfPermutation(OwnerOf(quads), quads, quads', q.subj);
  }
}
