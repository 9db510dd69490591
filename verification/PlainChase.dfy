/** Resolving each blank node without a memo: when the chase on its own tells trees apart. */
module PlainChase {
  import opened Rdf
  import opened SubjectTrees

  /** The path of a chase under way: no node twice. */
  ghost predicate IsWalk(owner: Owner, path: seq<string>) {
    IsPath(owner, path) && forall i, j | 0 <= i < j < |path| :: path[i] != path[j]
  }

  /** The chain of the last node ends with it, at a named owner or at none. */
  predicate Ends(owner: Owner, path: seq<string>)
    requires path != []
  {
    var last := path[|path| - 1];
    last !in owner || owner[last].Iri?
  }

  /** The last node leads back into the path. */
  predicate Returns(owner: Owner, path: seq<string>)
    requires path != []
  {
    var last := path[|path| - 1];
    last in owner && owner[last].Blank? && owner[last].name in path
  }

  /** The path walked, until the chain ends or comes back to itself. */
  ghost function Walk(owner: Owner, path: seq<string>): (full: seq<string>)
    requires IsWalk(owner, path)
    ensures IsWalk(owner, full) && full[0] == path[0] && (Ends(owner, full) || Returns(owner, full))
    decreases owner.Keys - Elements(path[..|path| - 1])
  {
    if Ends(owner, path) || Returns(owner, path) then path
    else
      var cur := path[|path| - 1];
      var longer := path + [owner[cur].name];
      assert longer[..|path|] == path && cur in owner.Keys - Elements(path[..|path| - 1]) && cur in Elements(path);
      Walk(owner, longer)
  }

  ghost function WalkFrom(owner: Owner, b: string): (full: seq<string>)
    ensures IsWalk(owner, full) && full[0] == b && (Ends(owner, full) || Returns(owner, full))
  {
    Walk(owner, [b])
  }

  /** The root without a memo: the end of the chain, or the least node walked when it
      comes back to itself. */
  ghost function PlainRoot(owner: Owner, b: string): Node {
    var full := WalkFrom(owner, b);
    if Ends(owner, full) then Parent(owner, Blank(full[|full| - 1])) else Blank(LeastOf(full))
  }

  // ── The order of names ────────────────────────────────────────────────────

  lemma {:induction false} LessIsTotal(a: string, b: string)
    ensures a == b || LexLess(a, b) || LexLess(b, a)
  {
    if a != [] && b != [] && a[0] == b[0] {
      LessIsTotal(a[1..], b[1..]);
      assert a == [a[0]] + a[1..] && b == [b[0]] + b[1..];
    }
  }

  lemma {:induction false} LessIsTransitive(a: string, b: string, c: string)
    requires LexLess(a, b) && LexLess(b, c)
    ensures LexLess(a, c)
  {
    if a != [] && a[0] == b[0] == c[0] {
      LessIsTransitive(a[1..], b[1..], c[1..]);
    }
  }

  lemma {:induction false} LessIsStrict(a: string)
    ensures !LexLess(a, a)
  {
    if a != [] {
      LessIsStrict(a[1..]);
    }
  }

  lemma {:induction false} LeastIsLeast(path: seq<string>, p: string)
    requires p in path
    ensures p == LeastOf(path) || LexLess(LeastOf(path), p)
  {
    if |path| > 1 {
      var m := LeastOf(path[1..]);
      if p in path[1..] {
        LeastIsLeast(path[1..], p);
      }
      LessIsTotal(m, path[0]);
      if LexLess(path[0], m) && LexLess(m, p) {
        LessIsTransitive(path[0], m, p);
      }
    }
  }

  // ── Cycles ────────────────────────────────────────────────────────────────

  /** The chain of `b` comes back to it. */
  ghost predicate OnCycle(owner: Owner, b: string) {
    exists k: nat :: k > 0 && Chase(owner, Blank(b), k) == Blank(b)
  }

  /** A node on a cycle comes up again and again. */
  lemma {:induction false} ComesUpAgain(owner: Owner, b: string, i: nat) returns (k: nat)
    requires OnCycle(owner, b)
    ensures k >= i && Chase(owner, Blank(b), k) == Blank(b)
  {
    if i == 0 {
      k := 0;
    } else {
      var period: nat :| period > 0 && Chase(owner, Blank(b), period) == Blank(b);
      k := ComesUpAgain(owner, b, i - 1);
      ChaseSplit(owner, Blank(b), period, k);
      k := period + k;
    }
  }

  /** Whatever the chain of a node on a cycle passes is on the cycle. */
  lemma CyclesAreClosed(owner: Owner, b: string, k: nat, c: string)
    requires OnCycle(owner, b) && Chase(owner, Blank(b), k) == Blank(c)
    ensures OnCycle(owner, c)
  {
    var period: nat :| period > 0 && Chase(owner, Blank(b), period) == Blank(b);
    ChaseSplit(owner, Blank(b), k, period);
    ChaseSplit(owner, Blank(b), period, k);
    assert Chase(owner, Blank(c), period) == Blank(c);
  }

  /** The node a walk comes back to is on a cycle. */
  lemma WalkReachesACycle(owner: Owner, path: seq<string>) returns (j: nat)
    requires IsWalk(owner, path) && Returns(owner, path)
    ensures j < |path| && OnCycle(owner, path[j])
  {
    var last := path[|path| - 1];
    j :| 0 <= j < |path| && path[j] == owner[last].name;
    var k := |path| - 1 - j;
    PathIsChain(owner, path, j, k);
    ChaseSplit(owner, Blank(path[j]), k, 1);
    assert Chase(owner, Blank(path[j]), k + 1) == Blank(path[j]);
  }

  /** A walk that comes back holds the whole chain of its first node. */
  lemma WalkHoldsChain(owner: Owner, b: string, k: nat) returns (c: string)
    requires Returns(owner, WalkFrom(owner, b))
    ensures c in WalkFrom(owner, b) && Chase(owner, Blank(b), k) == Blank(c)
  {
    var path := WalkFrom(owner, b);
    var i :| 0 <= i < |path| && path[i] == owner[path[|path| - 1]].name;
    assert Parent(owner, Blank(path[|path| - 1])) == Blank(path[i]);
    ClosedPathHoldsChain(owner, path, 0, k);
    var j :| 0 <= j < |path| && Chase(owner, Blank(b), k) == Blank(path[j]);
    c := path[j];
  }

  lemma WalkIsChain(owner: Owner, b: string, c: string) returns (k: nat)
    requires c in WalkFrom(owner, b)
    ensures Chase(owner, Blank(b), k) == Blank(c)
  {
    var path := WalkFrom(owner, b);
    k :| 0 <= k < |path| && path[k] == c;
    PathIsChain(owner, path, 0, k);
  }

  // ── The plain root is in the tree ─────────────────────────────────────────

  lemma PlainRootInTree(owner: Owner, b: string)
    ensures SameTree(owner, Blank(b), PlainRoot(owner, b))
  {
    var path := WalkFrom(owner, b);
    if Ends(owner, path) {
      PathInTree(owner, path, 0);
    } else {
      var k := WalkIsChain(owner, b, LeastOf(path));
      ChaseInTree(owner, Blank(b), k);
    }
  }

  /** Two nodes with one plain root are in one tree. */
  lemma OneRootOneTree(owner: Owner, n: string, m: string)
    requires PlainRoot(owner, n) == PlainRoot(owner, m)
    ensures SameTree(owner, Blank(n), Blank(m))
  {
    PlainRootInTree(owner, n);
    PlainRootInTree(owner, m);
    SameTreeSymmetric(owner, Blank(m), PlainRoot(owner, m));
    SameTreeTransitive(owner, Blank(n), PlainRoot(owner, n), Blank(m));
  }

  /** A chain that ends is never in a tree with one that comes back. */
  lemma EndedWalksMeetNoCycle(owner: Owner, n: string, m: string)
    requires Ends(owner, WalkFrom(owner, n)) && Returns(owner, WalkFrom(owner, m))
    ensures !SameTree(owner, Blank(n), Blank(m))
  {
    var end := PlainRoot(owner, n);
    if SameTree(owner, Blank(n), Blank(m)) {
      PlainRootInTree(owner, n);
      SameTreeSymmetric(owner, Blank(n), Blank(m));
      SameTreeTransitive(owner, Blank(m), Blank(n), end);
      var i: nat, j: nat :| Chase(owner, Blank(m), i) == Chase(owner, end, j);
      EndedChain(owner, end, j);
      var c := WalkHoldsChain(owner, m, i);
    }
  }

  /** Where chains end, one tree has one plain root. */
  lemma EndedWalksAgree(owner: Owner, n: string, m: string)
    requires SameTree(owner, Blank(n), Blank(m))
    requires Ends(owner, WalkFrom(owner, n)) && Ends(owner, WalkFrom(owner, m))
    ensures PlainRoot(owner, n) == PlainRoot(owner, m)
  {
    var r, r' := PlainRoot(owner, n), PlainRoot(owner, m);
    PlainRootInTree(owner, n);
    PlainRootInTree(owner, m);
    SameTreeSymmetric(owner, Blank(n), r);
    SameTreeTransitive(owner, r, Blank(n), Blank(m));
    SameTreeTransitive(owner, r, Blank(m), r');
    var i: nat, j: nat :| Chase(owner, r, i) == Chase(owner, r', j);
    EndedChain(owner, r, i);
    EndedChain(owner, r', j);
  }

  /** A node of one walk that is on a cycle is on every walk of the tree. */
  lemma CycleIsOnEveryWalk(owner: Owner, n: string, m: string, c: string)
    requires SameTree(owner, Blank(n), Blank(m)) && Returns(owner, WalkFrom(owner, m))
    requires c in WalkFrom(owner, n) && OnCycle(owner, c)
    ensures c in WalkFrom(owner, m)
  {
    var i: nat, j: nat :| Chase(owner, Blank(n), i) == Chase(owner, Blank(m), j);
    var a := WalkIsChain(owner, n, c);
    var k := ComesUpAgain(owner, c, i);
    ChaseSplit(owner, Blank(n), a, k);
    assert Chase(owner, Blank(n), a + k) == Blank(c);
    ChaseSplit(owner, Blank(n), i, a + k - i);
    ChaseSplit(owner, Blank(m), j, a + k - i);
    var c' := WalkHoldsChain(owner, m, j + (a + k - i));
  }

  // ── When the plain chase tells trees apart ────────────────────────────────

  /** A node off the cycle its chain leads into is never less than all of that cycle. */
  ghost predicate NoTailUndercuts(owner: Owner) {
    forall b: string {:trigger WalkFrom(owner, b)} | Returns(owner, WalkFrom(owner, b)) && !OnCycle(owner, b) ::
      exists c :: c in WalkFrom(owner, b) && OnCycle(owner, c) && LexLess(c, b)
  }

  ghost predicate PlainRootsTellTrees(owner: Owner) {
    forall n, m {:trigger PlainRoot(owner, n), PlainRoot(owner, m)} ::
      PlainRoot(owner, n) == PlainRoot(owner, m) <==> SameTree(owner, Blank(n), Blank(m))
  }

  lemma LeastIsOnTheCycle(owner: Owner, n: string)
    requires NoTailUndercuts(owner) && Returns(owner, WalkFrom(owner, n))
    ensures OnCycle(owner, LeastOf(WalkFrom(owner, n)))
  {
    var path := WalkFrom(owner, n);
    var m := LeastOf(path);
    if !OnCycle(owner, m) {
      var k := WalkIsChain(owner, n, m);
      ChaseInTree(owner, Blank(n), k);
      if Ends(owner, WalkFrom(owner, m)) {
        SameTreeSymmetric(owner, Blank(n), Blank(m));
        EndedWalksMeetNoCycle(owner, m, n);
      }
      var c :| c in WalkFrom(owner, m) && OnCycle(owner, c) && LexLess(c, m);
      var h := WalkIsChain(owner, m, c);
      ChaseSplit(owner, Blank(n), k, h);
      var c' := WalkHoldsChain(owner, n, k + h);
      LeastIsLeast(path, c);
      LessIsStrict(m);
      if LexLess(m, c) {
        LessIsTransitive(c, m, c);
        LessIsStrict(c);
      }
    }
  }

  lemma CyclicWalksAgree(owner: Owner, n: string, m: string)
    requires NoTailUndercuts(owner) && SameTree(owner, Blank(n), Blank(m))
    requires Returns(owner, WalkFrom(owner, n)) && Returns(owner, WalkFrom(owner, m))
    ensures LeastOf(WalkFrom(owner, n)) == LeastOf(WalkFrom(owner, m))
  {
    var a, b := LeastOf(WalkFrom(owner, n)), LeastOf(WalkFrom(owner, m));
    LeastIsOnTheCycle(owner, n);
    LeastIsOnTheCycle(owner, m);
    SameTreeSymmetric(owner, Blank(n), Blank(m));
    CycleIsOnEveryWalk(owner, n, m, a);
    CycleIsOnEveryWalk(owner, m, n, b);
    LeastIsLeast(WalkFrom(owner, m), a);
    LeastIsLeast(WalkFrom(owner, n), b);
    if a != b {
      LessIsTransitive(a, b, a);
      LessIsStrict(a);
    }
  }

  lemma OneTreeOneRoot(owner: Owner, n: string, m: string)
    requires NoTailUndercuts(owner) && SameTree(owner, Blank(n), Blank(m))
    ensures PlainRoot(owner, n) == PlainRoot(owner, m)
  {
    SameTreeSymmetric(owner, Blank(n), Blank(m));
    if Ends(owner, WalkFrom(owner, n)) && Ends(owner, WalkFrom(owner, m)) {
      EndedWalksAgree(owner, n, m);
    } else if Ends(owner, WalkFrom(owner, n)) {
      EndedWalksMeetNoCycle(owner, n, m);
    } else if Ends(owner, WalkFrom(owner, m)) {
      EndedWalksMeetNoCycle(owner, m, n);
    } else {
      CyclicWalksAgree(owner, n, m);
    }
  }

  /** A tail that undercuts its cycle is cut off from it. */
  lemma UndercuttingTailIsCutOff(owner: Owner, b: string) returns (c: string)
    requires Returns(owner, WalkFrom(owner, b)) && !OnCycle(owner, b)
    requires forall c | c in WalkFrom(owner, b) && OnCycle(owner, c) :: !LexLess(c, b)
    ensures SameTree(owner, Blank(b), Blank(c)) && PlainRoot(owner, b) != PlainRoot(owner, c)
  {
    var path := WalkFrom(owner, b);
    var j := WalkReachesACycle(owner, path);
    c := path[j];
    var k := WalkIsChain(owner, b, c);
    ChaseInTree(owner, Blank(b), k);
    SameTreeSymmetric(owner, Blank(b), Blank(c));
    if Ends(owner, WalkFrom(owner, c)) {
      EndedWalksMeetNoCycle(owner, c, b);
    }
    var r := LeastOf(WalkFrom(owner, c));
    var h := WalkIsChain(owner, c, r);
    CyclesAreClosed(owner, c, h, r);
    LeastIsLeast(path, b);
    LessIsTotal(b, r);
  }

  /** The exact condition: without the memo, the roots tell trees apart if and only if no
      tail undercuts the cycle it leads into. With the memo they always do. */
  lemma PlainRootsTellTreesExactlyWhen(owner: Owner)
    ensures PlainRootsTellTrees(owner) <==> NoTailUndercuts(owner)
  {
    if NoTailUndercuts(owner) {
      forall n, m
        ensures PlainRoot(owner, n) == PlainRoot(owner, m) <==> SameTree(owner, Blank(n), Blank(m))
      {
        if SameTree(owner, Blank(n), Blank(m)) {
          OneTreeOneRoot(owner, n, m);
        }
        if PlainRoot(owner, n) == PlainRoot(owner, m) {
          OneRootOneTree(owner, n, m);
        }
      }
    } else {
      var b :| Returns(owner, WalkFrom(owner, b)) && !OnCycle(owner, b)
               && forall c | c in WalkFrom(owner, b) && OnCycle(owner, c) :: !LexLess(c, b);
      var c := UndercuttingTailIsCutOff(owner, b);
    }
  }
}
