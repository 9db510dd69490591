/** What the excerpt keeps of each feature, said of single geometries and single vertices. */
module ReindexLaws {
  import opened Rdf
  import opened Reindex

  // ── Which geometries ──────────────────────────────────────────────────────

  predicate IsAskedFor(kind: string, lod: string) {
    (kind == "Building" && lod == "0") || (kind != "Building" && lod == "2.2")
  }

  /** Buildings keep their footprint and other objects their detailed solid, each as often
      as it is there, and nothing else is kept. */
  lemma {:induction false} KeptExactlyWhen(kind: string, geometries: seq<Geometry>, g: Geometry)
    ensures multiset(KeptOf(kind, geometries))[g] == if IsAskedFor(kind, g.lod) then multiset(geometries)[g] else 0
  {
    if geometries != [] {
      var before, last := geometries[..|geometries| - 1], geometries[|geometries| - 1];
      assert geometries == before + [last];
      KeptExactlyWhen(kind, before, g);
    }
  }

  /** And they are kept in their order. */
  lemma {:induction false} KeptInOrder(kind: string, a: seq<Geometry>, b: seq<Geometry>)
    ensures KeptOf(kind, a + b) == KeptOf(kind, a) + KeptOf(kind, b)
  {
    if b == [] {
      assert a + b == a;
    } else {
      var before, last := b[..|b| - 1], b[|b| - 1];
      assert (a + b)[..|a + b| - 1] == a + before;
      KeptInOrder(kind, a, before);
    }
  }

  // ── Which vertices ────────────────────────────────────────────────────────

  /** The ground level of a feature is the first that one of its objects states. */
  lemma {:induction false} FirstStatedGround(objects: seq<(string, CityObject)>, i: nat)
    requires i <= |objects| && forall j | 0 <= j < i :: objects[j].1.ground.None?
    requires i < |objects| ==> objects[i].1.ground.Some?
    ensures GroundOf(objects) == if i < |objects| then objects[i].1.ground else None
  {
    if i > 0 {
      FirstStatedGround(objects[1..], i - 1);
    }
  }

  /** The part of `b` at `path`. */
  function PartAt(b: Boundary, path: seq<nat>): Option<Boundary> {
    if path == [] then Some(b)
    else if b.Nested? && path[0] < |b.parts| then PartAt(b.parts[path[0]], path[1..])
    else None
  }

  function ShapeAt(s: Shape, path: seq<nat>): Option<Shape> {
    if path == [] then Some(s)
    else if s.Group? && path[0] < |s.parts| then ShapeAt(s.parts[path[0]], path[1..])
    else None
  }

  /** The vertex that index `i` stands for, lifted to `z` if that is given. */
  predicate StandsFor(vertices: seq<Vertex>, i: int, z: Option<int>, v: Vertex) {
    && 0 <= i + |vertices| && i < |vertices|
    && var own := if i < 0 then vertices[|vertices| + i] else vertices[i];
       v.x == own.x && v.y == own.y && v.z == if z.Some? then z.value else own.z
  }

  /** Geometry is nesting, and at each index the vertex it stands for. */
  lemma {:induction false} ResolvedAt(b: Boundary, vertices: seq<Vertex>, z: Option<int>, path: seq<nat>)
    requires InRange(b, |vertices|)
    ensures match PartAt(b, path)
            case None => ShapeAt(Resolve(b, vertices, z), path).None?
            case Some(Nested(parts)) =>
              var s := ShapeAt(Resolve(b, vertices, z), path);
              s.Some? && s.value.Group? && |s.value.parts| == |parts|
            case Some(Index(i)) =>
              var s := ShapeAt(Resolve(b, vertices, z), path);
              s.Some? && s.value.Point? && StandsFor(vertices, i, z, s.value.v)
    decreases |path|
  {
    if path != [] && b.Nested? && path[0] < |b.parts| {
      ResolvedAt(b.parts[path[0]], vertices, z, path[1..]);
    }
  }

  /** Every kept index is written as an index of a vertex with the same plan coordinates,
      and the same height unless a footprint is lifted to the ground. */
  lemma WrittenWhereItWas(written: seq<Geometry>, vertices: seq<Vertex>, f: Feature, kept: seq<Geometry>, k: nat,
                          path: seq<nat>, i: int)
    returns (j: int)
    requires Preserves(written, vertices, f, kept) && k < |kept|
    requires PartAt(kept[k].boundary, path) == Some(Index(i))
    ensures written[k].lod == kept[k].lod
    ensures PartAt(written[k].boundary, path) == Some(Index(j)) && 0 <= j < |vertices|
    ensures var n := |f.vertices|;
            && -n <= i < n
            && var own := if i < 0 then f.vertices[n + i] else f.vertices[i];
               && vertices[j].x == own.x && vertices[j].y == own.y
               && vertices[j].z == if kept[k].lod == "0" && GroundOf(f.objects).Some? then GroundOf(f.objects).value
                                   else own.z
  {
    ResolvedAt(kept[k].boundary, f.vertices, Override(f, kept[k]), path);
    ResolvedAt(written[k].boundary, vertices, None, path);
    WrittenAt(written[k].boundary, |vertices|, path);
    j := PartAt(written[k].boundary, path).value.i;
  }

  lemma {:induction false} WrittenAt(b: Boundary, n: nat, path: seq<nat>)
    requires Written(b, n)
    ensures PartAt(b, path).Some? ==> Written(PartAt(b, path).value, n)
    decreases |path|
  {
    if path != [] && b.Nested? && path[0] < |b.parts| {
      WrittenAt(b.parts[path[0]], n, path[1..]);
    }
  }
}
