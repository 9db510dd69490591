/** Merging CityJSON features into one document: the kept boundaries are re-indexed into
    one shared vertex list, footprints lifted to ground level. */
module Reindex {
  import opened Rdf

  /** A vertex in quantised units. */
  datatype Vertex = Vertex(x: int, y: int, z: int)

  /** Nested lists of vertex indices, to any depth. */
  datatype Boundary = Index(i: int) | Nested(parts: seq<Boundary>)

  /** The geometry a boundary stands for: the same nesting, of vertices. */
  datatype Shape = Point(v: Vertex) | Group(parts: seq<Shape>)

  predicate InRange(b: Boundary, n: nat) {
    match b
    case Index(i) => 0 <= i + n && i < n
    case Nested(parts) => forall p | p in parts :: InRange(p, n)
  }

  /** Indexing as the language does it: a negative index counts from the end. */
  function At(vertices: seq<Vertex>, i: int): Vertex
    requires 0 <= i + |vertices| && i < |vertices|
  {
    if i >= 0 then vertices[i] else vertices[|vertices| + i]
  }

  function Lift(v: Vertex, z: Option<int>): Vertex {
    if z.Some? then v.(z := z.value) else v
  }

  /** The geometry of `b` over `vertices`, with every z replaced when `z` is given. */
  function Resolve(b: Boundary, vertices: seq<Vertex>, z: Option<int>): Shape
    requires InRange(b, |vertices|)
  {
    match b
    case Index(i) => Point(Lift(At(vertices, i), z))
    case Nested(parts) =>
      Group(seq(|parts|, k requires 0 <= k < |parts| => Resolve(parts[k], vertices, z)))
  }

  /** The indices a boundary uses. */
  function Indices(b: Boundary): set<int> {
    match b
    case Index(i) => {i}
    case Nested(parts) => set p, i | p in parts && i in Indices(p) :: i
  }

  function AllIndices(parts: seq<Boundary>): set<int> {
    set p, i | p in parts && i in Indices(p) :: i
  }

  /** A re-indexed boundary: indices into the written list, counted from its start. */
  predicate Written(b: Boundary, n: nat) {
    match b
    case Index(i) => 0 <= i < n
    case Nested(parts) => forall p | p in parts :: Written(p, n)
  }

  lemma {:induction false} WrittenInRange(b: Boundary, n: nat)
    requires Written(b, n)
    ensures InRange(b, n)
  {
    if b.Nested? {
      forall p | p in b.parts
        ensures InRange(p, n)
      {
        WrittenInRange(p, n);
      }
    }
  }

  /** Indices handed out earlier keep their meaning as the list grows. */
  lemma {:induction false} GrowthKeepsGeometry(b: Boundary, vertices: seq<Vertex>, vertices': seq<Vertex>)
    requires Written(b, |vertices|) && vertices <= vertices'
    ensures Written(b, |vertices'|) && InRange(b, |vertices|) && InRange(b, |vertices'|)
    ensures Resolve(b, vertices, None) == Resolve(b, vertices', None)
  {
    WrittenInRange(b, |vertices|);
    if b.Nested? {
      forall k | 0 <= k < |b.parts|
        ensures Written(b.parts[k], |vertices'|) && InRange(b.parts[k], |vertices'|)
        ensures Resolve(b.parts[k], vertices, None) == Resolve(b.parts[k], vertices', None)
      {
        GrowthKeepsGeometry(b.parts[k], vertices, vertices');
      }
    }
  }

  // ── Where vertices come from ──────────────────────────────────────────────

  /** What a written vertex stands for: an index of a feature, by the feature's number, and
      the z that replaces its own. */
  datatype Origin = Origin(feature: nat, i: int, z: Option<int>)

  function Origins(indices: set<int>, feature: nat, z: Option<int>): set<Origin> {
    set i | i in indices :: Origin(feature, i, z)
  }

  /** The origins of the vertices `used`. */
  function OriginsAt(origins: seq<Origin>, used: set<int>): set<Origin> {
    set v | v in used && 0 <= v < |origins| :: origins[v]
  }

  function Elements<T>(s: seq<T>): set<T> {
    set x | x in s
  }

  ghost predicate Distinct<T>(s: seq<T>) {
    forall j, k | 0 <= j < k < |s| :: s[j] != s[k]
  }

  /** Vertices were added for just the origins `more`, some of which were there before. */
  ghost predicate Extended(before: seq<Origin>, origins: seq<Origin>, more: set<Origin>) {
    before <= origins && Elements(origins) == Elements(before) + more
  }

  lemma ExtendedTwice(before: seq<Origin>, mid: seq<Origin>, origins: seq<Origin>, a: set<Origin>, b: set<Origin>)
    requires Extended(before, mid, a) && Extended(mid, origins, b)
    ensures Extended(before, origins, a + b)
  {
  }

  lemma OriginsOfUnion(origins: seq<Origin>, a: set<int>, b: set<int>)
    ensures OriginsAt(origins, a + b) == OriginsAt(origins, a) + OriginsAt(origins, b)
  {
  }

  lemma OriginsStay(origins: seq<Origin>, origins': seq<Origin>, used: set<int>)
    requires origins <= origins' && forall v | v in used :: 0 <= v < |origins|
    ensures OriginsAt(origins', used) == OriginsAt(origins, used)
  {
    assert forall v | 0 <= v < |origins| :: origins'[v] == origins[v];
  }

  /** A vertex whose origin is among those of the vertices `used` is one of them. */
  lemma OriginTellsVertex(origins: seq<Origin>, used: set<int>, v: nat)
    requires Distinct(origins) && v < |origins|
    ensures v in used <==> origins[v] in OriginsAt(origins, used)
  {
    if origins[v] in OriginsAt(origins, used) {
      var k :| k in used && 0 <= k < |origins| && origins[k] == origins[v];
      assert !(k < v) && !(v < k);
    }
  }

  // ── The vertex list being written ─────────────────────────────────────────

  type Key = (int, Option<int>)

  class Writer {
    /** The vertices written so far. */
    var vertices: seq<Vertex>
    /** Where the current feature's vertices went, by their index and override. */
    var mapping: map<Key, nat>
    /** Where the vertices come from. */
    ghost var origins: seq<Origin>
    /** The number of the current feature. */
    ghost var feature: nat

    constructor ()
      ensures vertices == [] && mapping == map[] && origins == []
    {
      vertices := [];
      mapping := map[];
      origins := [];
      feature := 0;
    }

    /** Every entry points at its vertex, lifted as asked. */
    ghost predicate Valid(source: seq<Vertex>)
      reads this
    {
      && (forall key | key in mapping ::
            && 0 <= key.0 + |source| && key.0 < |source|
            && mapping[key] < |vertices|
            && vertices[mapping[key]] == Lift(At(source, key.0), key.1))
      && Traced()
    }

    /** Every vertex has its own origin, and those of the current feature are in the map. */
    ghost predicate Traced()
      reads this
    {
      && |origins| == |vertices| && Distinct(origins)
      && (forall key | key in mapping ::
            mapping[key] < |origins| && origins[mapping[key]] == Origin(feature, key.0, key.1))
      && (forall v | 0 <= v < |origins| && origins[v].feature == feature :: (origins[v].i, origins[v].z) in mapping)
    }

    method BeginFeature(ghost number: nat)
      requires |origins| == |vertices| && Distinct(origins)
      requires forall v | 0 <= v < |origins| :: origins[v].feature < number
      modifies this`mapping, this`feature
      ensures mapping == map[] && feature == number && Traced()
    {
      mapping := map[];
      feature := number;
    }

    /** The list has grown, by vertices for just the origins `more` (some of which it may
        have had), within one feature. */
    twostate predicate Grown(more: set<Origin>)
      reads this
    {
      && old(vertices) <= vertices && feature == old(feature)
      && Extended(old(origins), origins, more)
    }

    /** The index of vertex `i` of the source in the written list. */
    method IndexOf(source: seq<Vertex>, i: int, z: Option<int>) returns (k: nat)
      requires Valid(source) && 0 <= i + |source| && i < |source|
      modifies this
      ensures Valid(source) && Grown({Origin(feature, i, z)})
      ensures k < |vertices| && vertices[k] == Lift(At(source, i), z) && origins[k] == Origin(feature, i, z)
    {
      if (i, z) !in mapping {
        ghost var o := Origin(feature, i, z);
        assert forall v | 0 <= v < |origins| :: origins[v] != o;
        mapping := mapping[(i, z) := |vertices|];
        vertices := vertices + [Lift(At(source, i), z)];
        origins := origins + [o];
      }
      k := mapping[(i, z)];
    }

    /** The boundary over the written list: the same nesting and the same geometry (lifted
        when `z` is given). It uses one vertex for each index used, the same one every time
        in a feature, and every vertex written on the way. */
    method Remap(source: seq<Vertex>, b: Boundary, z: Option<int>) returns (b': Boundary)
      requires Valid(source) && InRange(b, |source|)
      modifies this
      ensures Valid(source) && Grown(Origins(Indices(b), feature, z))
      ensures Written(b', |vertices|) && InRange(b', |vertices|)
      ensures Resolve(b', vertices, None) == Resolve(b, source, z)
      ensures OriginsAt(origins, Indices(b')) == Origins(Indices(b), feature, z)
      ensures forall v | |old(vertices)| <= v < |vertices| :: v in Indices(b')
      decreases b, 1
    {
      b' := RemapTraced(source, b, z);
      NewVerticesAreUsed(old(origins), origins, Origins(Indices(b), feature, z), Indices(b'));
    }

    method RemapTraced(source: seq<Vertex>, b: Boundary, z: Option<int>) returns (b': Boundary)
      requires Valid(source) && InRange(b, |source|)
      modifies this
      ensures Valid(source) && Grown(Origins(Indices(b), feature, z))
      ensures Written(b', |vertices|) && InRange(b', |vertices|)
      ensures Resolve(b', vertices, None) == Resolve(b, source, z)
      ensures OriginsAt(origins, Indices(b')) == Origins(Indices(b), feature, z)
      decreases b, 0
    {
      match b {
        case Index(i) =>
          var k := IndexOf(source, i, z);
          b' := Index(k);
        case Nested(parts) =>
          var parts' := RemapAll(source, parts, z);
          b' := Nested(parts');
          AllResolve(parts', vertices, parts, source, z);
      }
    }

    method RemapAll(source: seq<Vertex>, parts: seq<Boundary>, z: Option<int>) returns (parts': seq<Boundary>)
      requires Valid(source) && forall p | p in parts :: InRange(p, |source|)
      modifies this
      ensures Valid(source) && Grown(Origins(AllIndices(parts), feature, z))
      ensures Remapped(parts', vertices, origins, parts, source, feature, z)
      decreases parts, 1
    {
      parts' := [];
      ghost var more := {};
      for k := 0 to |parts|
        invariant Valid(source) && Grown(more) && more == Origins(AllIndices(parts[..k]), feature, z)
        invariant Remapped(parts', vertices, origins, parts[..k], source, feature, z)
      {
        ghost var before := origins;
        parts' := RemapNext(source, parts, k, parts', z);
        ExtendedTwice(old(origins), before, origins, more, Origins(Indices(parts[k]), feature, z));
        more := more + Origins(Indices(parts[k]), feature, z);
      }
      assert parts[..|parts|] == parts;
    }

    method RemapNext(source: seq<Vertex>, parts: seq<Boundary>, k: nat, sofar: seq<Boundary>, z: Option<int>)
      returns (parts': seq<Boundary>)
      requires Valid(source) && k < |parts| && InRange(parts[k], |source|)
      requires Remapped(sofar, vertices, origins, parts[..k], source, feature, z)
      modifies this
      ensures Valid(source) && Grown(Origins(Indices(parts[k]), feature, z))
      ensures Remapped(parts', vertices, origins, parts[..k + 1], source, feature, z)
      ensures Origins(AllIndices(parts[..k + 1]), feature, z)
              == Origins(AllIndices(parts[..k]), feature, z) + Origins(Indices(parts[k]), feature, z)
      decreases parts, 0
    {
      ghost var before, originsBefore := vertices, origins;
      var p := Remap(source, parts[k], z);
      parts' := sofar + [p];
      assert parts[..k + 1] == parts[..k] + [parts[k]];
      RemappedGrows(sofar, before, originsBefore, parts[..k], source, feature, z, p, vertices, origins, parts[k]);
    }
  }

  /** Boundaries remapped one by one: the same geometries, by one vertex for each index. */
  ghost predicate Remapped(parts': seq<Boundary>, vertices: seq<Vertex>, origins: seq<Origin>, parts: seq<Boundary>,
                           source: seq<Vertex>, feature: nat, z: Option<int>) {
    && AllWritten(parts', vertices, parts, source, z)
    && OriginsAt(origins, AllIndices(parts')) == Origins(AllIndices(parts), feature, z)
  }

  lemma RemappedGrows(parts': seq<Boundary>, vertices: seq<Vertex>, origins: seq<Origin>, parts: seq<Boundary>,
                      source: seq<Vertex>, feature: nat, z: Option<int>,
                      p': Boundary, vertices': seq<Vertex>, origins': seq<Origin>, p: Boundary)
    requires Remapped(parts', vertices, origins, parts, source, feature, z)
    requires |origins| == |vertices| && vertices <= vertices' && origins <= origins'
    requires Written(p', |vertices'|) && InRange(p', |vertices'|) && InRange(p, |source|)
    requires Resolve(p', vertices', None) == Resolve(p, source, z)
    requires OriginsAt(origins', Indices(p')) == Origins(Indices(p), feature, z)
    ensures Remapped(parts' + [p'], vertices', origins', parts + [p], source, feature, z)
    ensures Origins(AllIndices(parts + [p]), feature, z)
            == Origins(AllIndices(parts), feature, z) + Origins(Indices(p), feature, z)
  {
    AllWrittenGrows(parts', vertices, parts, source, z, p', vertices', p);
    AllIndicesGrow(parts', p');
    AllIndicesGrow(parts, p);
    AllInRange(parts', vertices, parts, source, z);
    OriginsStay(origins, origins', AllIndices(parts'));
    OriginsOfUnion(origins', AllIndices(parts'), Indices(p'));
  }

  /** Whatever was written for `more` is used where all of `more` is. */
  lemma NewVerticesAreUsed(before: seq<Origin>, origins: seq<Origin>, more: set<Origin>, used: set<int>)
    requires Extended(before, origins, more) && Distinct(origins)
    requires OriginsAt(origins, used) == more
    ensures forall v | |before| <= v < |origins| :: v in used
  {
    forall v | |before| <= v < |origins|
      ensures v in used
    {
      assert origins[v] in Elements(origins);
      assert forall k | 0 <= k < |before| :: before[k] == origins[k] != origins[v];
      OriginTellsVertex(origins, used, v);
    }
  }

  lemma AllInRange(parts': seq<Boundary>, vertices: seq<Vertex>, parts: seq<Boundary>, source: seq<Vertex>,
                   z: Option<int>)
    requires AllWritten(parts', vertices, parts, source, z)
    ensures forall i | i in AllIndices(parts') :: 0 <= i < |vertices|
  {
    forall p | p in parts'
      ensures forall i | i in Indices(p) :: 0 <= i < |vertices|
    {
      WrittenUseRange(p, |vertices|);
    }
  }

  lemma {:induction false} WrittenUseRange(b: Boundary, n: nat)
    requires Written(b, n)
    ensures forall i | i in Indices(b) :: 0 <= i < n
  {
    if b.Nested? {
      forall p | p in b.parts
        ensures forall i | i in Indices(p) :: 0 <= i < n
      {
        WrittenUseRange(p, n);
      }
    }
  }

  lemma AllIndicesGrow(parts: seq<Boundary>, p: Boundary)
    ensures AllIndices(parts + [p]) == AllIndices(parts) + Indices(p)
  {
    forall i | i in AllIndices(parts) + Indices(p)
      ensures i in AllIndices(parts + [p])
    {
      if i in Indices(p) {
        assert p in parts + [p];
      } else {
        var q :| q in parts && i in Indices(q);
        assert q in parts + [p];
      }
    }
  }

  /** Each boundary of `parts'`, over the written list, is its counterpart's geometry. */
  ghost predicate AllWritten(parts': seq<Boundary>, vertices: seq<Vertex>, parts: seq<Boundary>, source: seq<Vertex>,
                             z: Option<int>) {
    && |parts'| == |parts|
    && forall k | 0 <= k < |parts| ::
         && Written(parts'[k], |vertices|) && InRange(parts'[k], |vertices|) && InRange(parts[k], |source|)
         && Resolve(parts'[k], vertices, None) == Resolve(parts[k], source, z)
  }

  lemma AllWrittenGrows(parts': seq<Boundary>, vertices: seq<Vertex>, parts: seq<Boundary>, source: seq<Vertex>,
                        z: Option<int>,
                        p': Boundary, vertices': seq<Vertex>, p: Boundary)
    requires AllWritten(parts', vertices, parts, source, z) && vertices <= vertices'
    requires Written(p', |vertices'|) && InRange(p', |vertices'|) && InRange(p, |source|)
    requires Resolve(p', vertices', None) == Resolve(p, source, z)
    ensures AllWritten(parts' + [p'], vertices', parts + [p], source, z)
  {
    forall k | 0 <= k < |parts|
      ensures Written(parts'[k], |vertices'|) && InRange(parts'[k], |vertices'|)
      ensures Resolve(parts'[k], vertices', None) == Resolve(parts[k], source, z)
    {
      GrowthKeepsGeometry(parts'[k], vertices, vertices');
    }
  }

  lemma AllResolve(parts': seq<Boundary>, vertices: seq<Vertex>, parts: seq<Boundary>, source: seq<Vertex>,
                   z: Option<int>)
    requires AllWritten(parts', vertices, parts, source, z)
    ensures Written(Nested(parts'), |vertices|) && InRange(Nested(parts'), |vertices|)
            && InRange(Nested(parts), |source|)
    ensures Resolve(Nested(parts'), vertices, None) == Resolve(Nested(parts), source, z)
  {
    assert forall p | p in parts :: InRange(p, |source|);
  }

  // ── The document ──────────────────────────────────────────────────────────

  datatype Geometry = Geometry(lod: string, boundary: Boundary)

  /** A city object; `ground` is its ground level in quantised units, if it states one. */
  datatype CityObject = CityObject(kind: string, geometries: seq<Geometry>, ground: Option<int>)

  /** A feature: its vertices, and its objects in order, each under its own id. */
  datatype Feature = Feature(vertices: seq<Vertex>, objects: seq<(string, CityObject)>)

  /** What is written of an object. */
  datatype Slim = Slim(kind: string, geometries: seq<Geometry>)

  /** Buildings keep their footprint, everything else its most detailed solid. */
  predicate KeepGeometry(kind: string, g: Geometry) {
    if kind == "Building" then g.lod == "0" else g.lod == "2.2"
  }

  function Kept(o: CityObject): seq<Geometry> {
    KeptOf(o.kind, o.geometries)
  }

  function KeptOf(kind: string, geometries: seq<Geometry>): seq<Geometry> {
    if geometries == [] then []
    else
      var last := geometries[|geometries| - 1];
      KeptOf(kind, geometries[..|geometries| - 1]) + if KeepGeometry(kind, last) then [last] else []
  }

  /** The first ground level stated in the feature. */
  function GroundOf(objects: seq<(string, CityObject)>): Option<int> {
    if objects == [] then None
    else if objects[0].1.ground.Some? then objects[0].1.ground
    else GroundOf(objects[1..])
  }

  /** Only footprints are lifted. */
  function Override(f: Feature, g: Geometry): Option<int> {
    if g.lod == "0" then GroundOf(f.objects) else None
  }

  predicate Indexed(o: CityObject, n: nat) {
    forall g | g in Kept(o) :: InRange(g.boundary, n)
  }

  /** Every kept boundary uses the feature's own vertices. */
  predicate WellIndexed(f: Feature) {
    forall o | o in f.objects :: Indexed(o.1, |f.vertices|)
  }

  /** `written` holds the geometries `kept` of a feature, over `vertices`: each with its
      nesting and its original vertices, lifted if it is a footprint. */
  ghost predicate Preserves(written: seq<Geometry>, vertices: seq<Vertex>, f: Feature, kept: seq<Geometry>) {
    && |written| == |kept|
    && forall k | 0 <= k < |kept| ::
         && written[k].lod == kept[k].lod
         && Written(written[k].boundary, |vertices|) && InRange(written[k].boundary, |vertices|)
         && InRange(kept[k].boundary, |f.vertices|)
         && Resolve(written[k].boundary, vertices, None) == Resolve(kept[k].boundary, f.vertices, Override(f, kept[k]))
  }

  lemma GrowthPreserves(written: seq<Geometry>, vertices: seq<Vertex>, vertices': seq<Vertex>, f: Feature,
                        kept: seq<Geometry>)
    requires Preserves(written, vertices, f, kept) && vertices <= vertices'
    ensures Preserves(written, vertices', f, kept)
  {
    forall k | 0 <= k < |kept|
      ensures Written(written[k].boundary, |vertices'|) && InRange(written[k].boundary, |vertices'|)
      ensures Resolve(written[k].boundary, vertices', None) == Resolve(written[k].boundary, vertices, None)
    {
      GrowthKeepsGeometry(written[k].boundary, vertices, vertices');
    }
  }

  function UsedBy(geometries: seq<Geometry>): set<int> {
    if geometries == [] then {}
    else UsedBy(geometries[..|geometries| - 1]) + Indices(geometries[|geometries| - 1].boundary)
  }

  /** The origins of the vertices that geometries of feature number `n` ask for. */
  function KeptOrigins(kept: seq<Geometry>, f: Feature, n: nat): set<Origin> {
    if kept == [] then {}
    else
      var last := kept[|kept| - 1];
      KeptOrigins(kept[..|kept| - 1], f, n) + Origins(Indices(last.boundary), n, Override(f, last))
  }

  /** A solid's geometry is its own, whatever ground level the feature states: lifting the
      footprint never moves it. */
  lemma SolidsAreNotLifted(written: seq<Geometry>, vertices: seq<Vertex>, f: Feature, kept: seq<Geometry>, k: nat)
    requires Preserves(written, vertices, f, kept) && k < |kept| && kept[k].lod != "0"
    ensures Resolve(written[k].boundary, vertices, None) == Resolve(kept[k].boundary, f.vertices, None)
  {
  }

  method GroundLevel(objects: seq<(string, CityObject)>) returns (ground: Option<int>)
    ensures ground == GroundOf(objects)
  {
    for i := 0 to |objects|
      invariant GroundOf(objects) == GroundOf(objects[i..])
    {
      if objects[i].1.ground.Some? {
        return objects[i].1.ground;
      }
      assert objects[i..][1..] == objects[i + 1..];
    }
    ground := None;
  }

  lemma PreservesOneMore(written: seq<Geometry>, vertices: seq<Vertex>, f: Feature, kept: seq<Geometry>,
                         g': Geometry, vertices': seq<Vertex>, g: Geometry)
    requires Preserves(written, vertices, f, kept) && vertices <= vertices'
    requires Preserves([g'], vertices', f, [g])
    ensures Preserves(written + [g'], vertices', f, kept + [g])
  {
    GrowthPreserves(written, vertices, vertices', f, kept);
    assert [g'][0] == g' && [g][0] == g;
  }

  /** Geometries written one by one: each with its geometry, by one vertex for each origin. */
  ghost predicate Laid(written: seq<Geometry>, vertices: seq<Vertex>, origins: seq<Origin>, f: Feature, n: nat,
                       kept: seq<Geometry>) {
    && Preserves(written, vertices, f, kept)
    && OriginsAt(origins, UsedBy(written)) == KeptOrigins(kept, f, n)
  }

  /** One more geometry uses its own origins besides. */
  lemma LaidOneMore(written: seq<Geometry>, vertices: seq<Vertex>, origins: seq<Origin>, f: Feature, n: nat,
                    kept: seq<Geometry>, g': Geometry, vertices': seq<Vertex>, origins': seq<Origin>, g: Geometry)
    requires Laid(written, vertices, origins, f, n, kept)
    requires |origins| == |vertices| && vertices <= vertices' && origins <= origins'
    requires Preserves([g'], vertices', f, [g])
    requires OriginsAt(origins', Indices(g'.boundary)) == Origins(Indices(g.boundary), n, Override(f, g))
    ensures Laid(written + [g'], vertices', origins', f, n, kept + [g])
    ensures KeptOrigins(kept + [g], f, n) == KeptOrigins(kept, f, n) + Origins(Indices(g.boundary), n, Override(f, g))
  {
    PreservesOneMore(written, vertices, f, kept, g', vertices', g);
    assert (written + [g'])[..|written|] == written && (kept + [g])[..|kept|] == kept;
    UsedInRange(written, |origins|);
    OriginsStay(origins, origins', UsedBy(written));
    OriginsOfUnion(origins', UsedBy(written), Indices(g'.boundary));
  }

  lemma {:induction false} UsedInRange(geometries: seq<Geometry>, n: nat)
    requires forall k | 0 <= k < |geometries| :: Written(geometries[k].boundary, n)
    ensures forall i | i in UsedBy(geometries) :: 0 <= i < n
  {
    if geometries != [] {
      UsedInRange(geometries[..|geometries| - 1], n);
      WrittenUseRange(geometries[|geometries| - 1].boundary, n);
    }
  }

  lemma KeptOfOneMore(kind: string, geometries: seq<Geometry>, i: nat)
    requires i < |geometries|
    ensures KeptOf(kind, geometries[..i + 1])
            == KeptOf(kind, geometries[..i]) + if KeepGeometry(kind, geometries[i]) then [geometries[i]] else []
  {
    assert geometries[..i + 1][..i] == geometries[..i];
  }

  method WriteGeometry(w: Writer, f: Feature, g: Geometry, ground: Option<int>) returns (g': Geometry)
    requires w.Valid(f.vertices) && InRange(g.boundary, |f.vertices|) && ground == GroundOf(f.objects)
    modifies w
    ensures w.Valid(f.vertices) && w.Grown(Origins(Indices(g.boundary), w.feature, Override(f, g)))
    ensures Preserves([g'], w.vertices, f, [g])
    ensures OriginsAt(w.origins, Indices(g'.boundary)) == Origins(Indices(g.boundary), w.feature, Override(f, g))
  {
    var b := w.Remap(f.vertices, g.boundary, if g.lod == "0" then ground else None);
    g' := Geometry(g.lod, b);
  }

  /** The kept geometries of one object. Together they use one vertex for each origin they
      ask for. */
  method WriteObject(w: Writer, f: Feature, o: CityObject) returns (written: seq<Geometry>)
    requires w.Valid(f.vertices) && forall g | g in Kept(o) :: InRange(g.boundary, |f.vertices|)
    modifies w
    ensures w.Valid(f.vertices) && w.Grown(KeptOrigins(Kept(o), f, w.feature))
    ensures Laid(written, w.vertices, w.origins, f, w.feature, Kept(o))
  {
    written := [];
    var ground := GroundLevel(f.objects);
    ghost var kept := [];
    for i := 0 to |o.geometries|
      invariant w.Valid(f.vertices) && w.Grown(KeptOrigins(kept, f, w.feature))
      invariant kept == KeptOf(o.kind, o.geometries[..i]) && Laid(written, w.vertices, w.origins, f, w.feature, kept)
    {
      KeptOfOneMore(o.kind, o.geometries, i);
      if KeepGeometry(o.kind, o.geometries[i]) {
        KeptIsKept(o.kind, o.geometries, i);
        ghost var before, more := w.origins, KeptOrigins(kept, f, w.feature);
        written := WriteNext(w, f, o.geometries[i], ground, written, kept);
        ghost var own := Origins(Indices(o.geometries[i].boundary), w.feature, Override(f, o.geometries[i]));
        ExtendedTwice(old(w.origins), before, w.origins, more, own);
        kept := kept + [o.geometries[i]];
      }
    }
    assert o.geometries[..|o.geometries|] == o.geometries;
  }

  method WriteNext(w: Writer, f: Feature, g: Geometry, ground: Option<int>, sofar: seq<Geometry>,
                   ghost kept: seq<Geometry>)
    returns (written: seq<Geometry>)
    requires w.Valid(f.vertices) && InRange(g.boundary, |f.vertices|) && ground == GroundOf(f.objects)
    requires Laid(sofar, w.vertices, w.origins, f, w.feature, kept)
    modifies w
    ensures w.Valid(f.vertices) && w.Grown(Origins(Indices(g.boundary), w.feature, Override(f, g)))
    ensures Laid(written, w.vertices, w.origins, f, w.feature, kept + [g])
    ensures KeptOrigins(kept + [g], f, w.feature)
            == KeptOrigins(kept, f, w.feature) + Origins(Indices(g.boundary), w.feature, Override(f, g))
  {
    ghost var before, originsBefore := w.vertices, w.origins;
    var g' := WriteGeometry(w, f, g, ground);
    LaidOneMore(sofar, before, originsBefore, f, w.feature, kept, g', w.vertices, w.origins, g);
    written := sofar + [g'];
  }

  lemma {:induction false} KeptIsKept(kind: string, geometries: seq<Geometry>, i: nat)
    requires i < |geometries| && KeepGeometry(kind, geometries[i])
    ensures geometries[i] in KeptOf(kind, geometries)
  {
    if i < |geometries| - 1 {
      KeptIsKept(kind, geometries[..|geometries| - 1], i);
    }
  }

  // ── All features ──────────────────────────────────────────────────────────

  /** An object as it is met: its feature, the feature's number, its id, itself. */
  datatype Entry = Entry(f: Feature, n: nat, id: string, o: CityObject)
  {
    /** The origins of the vertices it asks for. */
    function Needs(): set<Origin> {
      KeptOrigins(Kept(o), f, n)
    }
  }

  function EntryAt(f: Feature, n: nat, k: nat): Entry
    requires k < |f.objects|
  {
    Entry(f, n, f.objects[k].0, f.objects[k].1)
  }

  function EntriesOf(f: Feature, n: nat, size: nat): seq<Entry>
    requires size <= |f.objects|
  {
    seq(size, k requires 0 <= k < size => EntryAt(f, n, k))
  }

  function Entries(features: seq<Feature>): seq<Entry> {
    if features == [] then []
    else
      var n := |features| - 1;
      Entries(features[..n]) + EntriesOf(features[n], n, |features[n].objects|)
  }

  /** The last object met under an id: the one the document keeps. */
  function LastUnder(met: seq<Entry>, id: string): Option<Entry> {
    if met == [] then None
    else if met[|met| - 1].id == id then Some(met[|met| - 1])
    else LastUnder(met[..|met| - 1], id)
  }

  /** What was written of the objects met: under each id, what the last of them keeps. */
  ghost predicate Holds(objects: map<string, Slim>, vertices: seq<Vertex>, met: seq<Entry>) {
    forall id: string {:trigger LastUnder(met, id)} ::
      && (id in objects <==> LastUnder(met, id).Some?)
      && (id in objects ==> Stands(objects[id], vertices, LastUnder(met, id).value))
  }

  ghost predicate Stands(slim: Slim, vertices: seq<Vertex>, e: Entry) {
    slim.kind == e.o.kind && Preserves(slim.geometries, vertices, e.f, Kept(e.o))
  }

  /** The indices the document uses. */
  function UsedIn(objects: map<string, Slim>): set<int> {
    set id, i | id in objects && i in UsedBy(objects[id].geometries) :: i
  }

  predicate DistinctIds(met: seq<Entry>) {
    forall i, j | 0 <= i < j < |met| :: met[i].id != met[j].id
  }

  /** What any object met asks for. */
  function AllNeeds(met: seq<Entry>): set<Origin> {
    set e, o | e in met && o in e.Needs() :: o
  }

  /** The objects the document keeps. */
  function Last(met: seq<Entry>): set<Entry> {
    set e | e in met && LastUnder(met, e.id) == Some(e)
  }

  /** What these ask for. */
  function LastNeeds(met: seq<Entry>): set<Origin> {
    set e, o | e in Last(met) && o in e.Needs() :: o
  }

  /** `met[i]` is met again under its id. */
  predicate MetAgain(met: seq<Entry>, i: nat)
    requires i < |met|
  {
    exists j :: i < j < |met| && met[j].id == met[i].id
  }

  /** Every vertex that an object met again asks for, an object of its feature (an origin
      tells the feature) that the document keeps asks for too. */
  predicate NothingLost(met: seq<Entry>) {
    forall i: nat | i < |met| && MetAgain(met, i) :: met[i].Needs() <= LastNeeds(met)
  }

  /** What was written of every object met, those whose id was met again included. */
  ghost predicate AllMet(written: seq<seq<Geometry>>, vertices: seq<Vertex>, met: seq<Entry>) {
    && |written| == |met|
    && forall i {:trigger written[i]} | 0 <= i < |met| :: Preserves(written[i], vertices, met[i].f, Kept(met[i].o))
  }

  /** The document made of what was written: an object met again replaces the one before. */
  function Document(met: seq<Entry>, written: seq<seq<Geometry>>): map<string, Slim>
    requires |written| == |met|
  {
    if met == [] then map[]
    else
      var n := |met| - 1;
      Document(met[..n], written[..n])[met[n].id := Slim(met[n].o.kind, written[n])]
  }

  /** Every object met uses one vertex for each origin it asks for. */
  ghost predicate AllTraced(written: seq<seq<Geometry>>, origins: seq<Origin>, met: seq<Entry>) {
    && |written| == |met|
    && forall i {:trigger written[i]} | 0 <= i < |met| :: OriginsAt(origins, UsedBy(written[i])) == met[i].Needs()
  }

  /** Every object met is written, and each vertex has an origin of its own, which an object
      met asks for. */
  ghost predicate Drafted(objects: map<string, Slim>, vertices: seq<Vertex>, origins: seq<Origin>, met: seq<Entry>,
                          written: seq<seq<Geometry>>) {
    && AllMet(written, vertices, met) && objects == Document(met, written)
    && |origins| == |vertices| && Distinct(origins)
    && AllTraced(written, origins, met) && Elements(origins) == AllNeeds(met)
  }

  /** The document holds what the last object under each id keeps. */
  lemma {:induction false} DocumentHolds(vertices: seq<Vertex>, met: seq<Entry>, written: seq<seq<Geometry>>)
    requires AllMet(written, vertices, met)
    ensures Holds(Document(met, written), vertices, met)
  {
    if met != [] {
      var n := |met| - 1;
      DocumentHolds(vertices, met[..n], written[..n]);
      assert met == met[..n] + [met[n]];
      HoldsOneMore(Document(met[..n], written[..n]), vertices, met[..n], met[n], written[n], vertices);
    }
  }

  /** What the document uses comes from what the last object under each id asks for. */
  lemma {:induction false} DocumentIsTraced(met: seq<Entry>, written: seq<seq<Geometry>>, origins: seq<Origin>)
    requires AllTraced(written, origins, met)
    ensures forall id: string {:trigger LastUnder(met, id)} ::
              && (id in Document(met, written) <==> LastUnder(met, id).Some?)
              && (id in Document(met, written) ==>
                    OriginsAt(origins, UsedBy(Document(met, written)[id].geometries))
                        == LastUnder(met, id).value.Needs())
  {
    if met != [] {
      var n := |met| - 1;
      DocumentIsTraced(met[..n], written[..n], origins);
      assert OriginsAt(origins, UsedBy(written[n])) == met[n].Needs();
    }
  }

  lemma {:induction false} LastUnderIsMet(met: seq<Entry>, id: string)
    ensures LastUnder(met, id).Some? ==> LastUnder(met, id).value in met && LastUnder(met, id).value.id == id
  {
    if met != [] {
      LastUnderIsMet(met[..|met| - 1], id);
    }
  }

  lemma UsedInIsTraced(met: seq<Entry>, written: seq<seq<Geometry>>, origins: seq<Origin>)
    requires AllTraced(written, origins, met)
    ensures OriginsAt(origins, UsedIn(Document(met, written))) == LastNeeds(met)
  {
    var objects := Document(met, written);
    DocumentIsTraced(met, written, origins);
    forall o | o in OriginsAt(origins, UsedIn(objects))
      ensures o in LastNeeds(met)
    {
      var v :| v in UsedIn(objects) && 0 <= v < |origins| && origins[v] == o;
      var id :| id in objects && v in UsedBy(objects[id].geometries);
      LastUnderIsMet(met, id);
      assert o in LastUnder(met, id).value.Needs();
    }
    forall o | o in LastNeeds(met)
      ensures o in OriginsAt(origins, UsedIn(objects))
    {
      var e :| e in Last(met) && o in e.Needs();
      assert LastUnder(met, e.id) == Some(e);
      var v :| v in UsedBy(objects[e.id].geometries) && 0 <= v < |origins| && origins[v] == o;
      assert v in UsedIn(objects);
    }
  }

  /** An object not met again is the last under its id. */
  lemma {:induction false} NotMetAgain(met: seq<Entry>, i: nat)
    requires i < |met| && !MetAgain(met, i)
    ensures LastUnder(met, met[i].id) == Some(met[i])
  {
    var n := |met| - 1;
    if i < n {
      assert met[n].id != met[i].id;
      assert forall j | i < j < n :: met[..n][j].id == met[j].id;
      NotMetAgain(met[..n], i);
    }
  }

  lemma NothingLostMeansAllKept(met: seq<Entry>)
    ensures NothingLost(met) <==> AllNeeds(met) <= LastNeeds(met)
    ensures DistinctIds(met) ==> NothingLost(met)
  {
    if NothingLost(met) {
      forall e, o | e in met && o in e.Needs()
        ensures o in LastNeeds(met)
      {
        var i: nat :| i < |met| && met[i] == e;
        if !MetAgain(met, i) {
          NotMetAgain(met, i);
          assert e in Last(met);
        }
      }
    }
    if AllNeeds(met) <= LastNeeds(met) {
      forall i: nat | i < |met|
        ensures met[i].Needs() <= LastNeeds(met)
      {
        assert met[i] in met;
      }
    }
  }

  /** A draft references every vertex exactly when nothing was lost. */
  lemma DraftIsLeanExactlyWhen(objects: map<string, Slim>, vertices: seq<Vertex>, origins: seq<Origin>,
                               met: seq<Entry>, written: seq<seq<Geometry>>)
    requires Drafted(objects, vertices, origins, met, written)
    ensures (forall v | 0 <= v < |vertices| :: v in UsedIn(objects)) <==> NothingLost(met)
    ensures |vertices| == |AllNeeds(met)|
  {
    NothingLostMeansAllKept(met);
    UsedInIsTraced(met, written, origins);
    forall v | 0 <= v < |vertices|
      ensures v in UsedIn(objects) <==> origins[v] in LastNeeds(met)
      ensures origins[v] in AllNeeds(met)
    {
      OriginTellsVertex(origins, UsedIn(objects), v);
      assert origins[v] in Elements(origins);
    }
    forall o | o in AllNeeds(met)
      ensures exists v :: 0 <= v < |vertices| && origins[v] == o
    {
      assert o in Elements(origins);
    }
    SizeOfDistinct(origins);
  }

  lemma {:induction false} SizeOfDistinct<T>(s: seq<T>)
    requires Distinct(s)
    ensures |Elements(s)| == |s|
  {
    if s != [] {
      var prefix, last := s[..|s| - 1], s[|s| - 1];
      SizeOfDistinct(prefix);
      assert s == prefix + [last];
      assert last !in Elements(prefix);
      assert Elements(s) == Elements(prefix) + {last};
    }
  }

  lemma AllTracedOneMore(written: seq<seq<Geometry>>, vertices: seq<Vertex>, origins: seq<Origin>, met: seq<Entry>,
                         e: Entry, more: seq<Geometry>, origins': seq<Origin>)
    requires AllMet(written, vertices, met) && |origins| == |vertices| && origins <= origins'
    requires AllTraced(written, origins, met) && OriginsAt(origins', UsedBy(more)) == e.Needs()
    ensures AllTraced(written + [more], origins', met + [e])
  {
    forall i | 0 <= i < |met|
      ensures OriginsAt(origins', UsedBy(written[i])) == met[i].Needs()
    {
      assert Preserves(written[i], vertices, met[i].f, Kept(met[i].o));
      UsedInRange(written[i], |origins|);
      OriginsStay(origins, origins', UsedBy(written[i]));
    }
  }

  lemma AllNeedsOneMore(met: seq<Entry>, e: Entry)
    ensures AllNeeds(met + [e]) == AllNeeds(met) + e.Needs()
  {
    forall o | o in AllNeeds(met) + e.Needs()
      ensures o in AllNeeds(met + [e])
    {
      if o in e.Needs() {
        assert e in met + [e];
      } else {
        var e' :| e' in met && o in e'.Needs();
        assert e' in met + [e];
      }
    }
  }

  lemma AllMetOneMore(written: seq<seq<Geometry>>, vertices: seq<Vertex>, met: seq<Entry>, e: Entry,
                      more: seq<Geometry>,
                      vertices': seq<Vertex>)
    requires AllMet(written, vertices, met) && vertices <= vertices'
    requires Preserves(more, vertices', e.f, Kept(e.o))
    ensures AllMet(written + [more], vertices', met + [e])
  {
    forall i | 0 <= i < |met|
      ensures Preserves(written[i], vertices', met[i].f, Kept(met[i].o))
    {
      GrowthPreserves(written[i], vertices, vertices', met[i].f, Kept(met[i].o));
    }
  }

  lemma DocumentOneMore(met: seq<Entry>, written: seq<seq<Geometry>>, e: Entry, more: seq<Geometry>)
    requires |written| == |met|
    ensures Document(met + [e], written + [more]) == Document(met, written)[e.id := Slim(e.o.kind, more)]
  {
    assert (written + [more])[..|written|] == written && (met + [e])[..|met|] == met;
  }

  lemma DraftedOneMore(objects: map<string, Slim>, vertices: seq<Vertex>, origins: seq<Origin>, met: seq<Entry>,
                       written: seq<seq<Geometry>>,
                       e: Entry, more: seq<Geometry>, vertices': seq<Vertex>, origins': seq<Origin>)
    requires Drafted(objects, vertices, origins, met, written) && vertices <= vertices' && origins <= origins'
    requires Preserves(more, vertices', e.f, Kept(e.o)) && OriginsAt(origins', UsedBy(more)) == e.Needs()
    requires |origins'| == |vertices'| && Distinct(origins') && Extended(origins, origins', e.Needs())
    ensures Drafted(objects[e.id := Slim(e.o.kind, more)], vertices', origins', met + [e], written + [more])
  {
    AllMetOneMore(written, vertices, met, e, more, vertices');
    DocumentOneMore(met, written, e, more);
    AllTracedOneMore(written, vertices, origins, met, e, more, origins');
    AllNeedsOneMore(met, e);
  }

  lemma HoldsOneMore(objects: map<string, Slim>, vertices: seq<Vertex>, met: seq<Entry>, e: Entry,
                     written: seq<Geometry>, vertices': seq<Vertex>)
    requires Holds(objects, vertices, met) && vertices <= vertices'
    requires Preserves(written, vertices', e.f, Kept(e.o))
    ensures Holds(objects[e.id := Slim(e.o.kind, written)], vertices', met + [e])
  {
    var objects' := objects[e.id := Slim(e.o.kind, written)];
    assert (met + [e])[..|met|] == met;
    forall id: string
      ensures id in objects' <==> LastUnder(met + [e], id).Some?
      ensures id in objects' ==> Stands(objects'[id], vertices', LastUnder(met + [e], id).value)
    {
      if id != e.id && id in objects {
        var last := LastUnder(met, id).value;
        GrowthPreserves(objects[id].geometries, vertices, vertices', last.f, Kept(last.o));
      }
    }
  }

  lemma {:induction false} NotMet(met: seq<Entry>, id: string)
    requires forall i | 0 <= i < |met| :: met[i].id != id
    ensures LastUnder(met, id) == None
  {
    if met != [] {
      NotMet(met[..|met| - 1], id);
    }
  }

  /** The document: every object with its kept geometries, and the vertices they use.
      `written` is what was written of each object met, in order. */
  method BuildExcerpt(features: seq<Feature>)
    returns (objects: map<string, Slim>, vertices: seq<Vertex>, ghost written: seq<seq<Geometry>>)
    requires forall f | f in features :: WellIndexed(f)
    // Under each id, the kept geometries of the last object with it, unchanged.
    ensures Holds(objects, vertices, Entries(features))
    // Every object met was written, with one vertex for each origin that any of them asks for.
    ensures AllMet(written, vertices, Entries(features))
    ensures |vertices| == |AllNeeds(Entries(features))|
    // Every vertex is referenced exactly when nothing is lost to objects met again.
    ensures (forall v | 0 <= v < |vertices| :: v in UsedIn(objects)) <==> NothingLost(Entries(features))
    // So with distinct ids it is.
    ensures DistinctIds(Entries(features)) ==> forall v | 0 <= v < |vertices| :: v in UsedIn(objects)
  {
    var w := new Writer();
    objects := map[];
    ghost var met, all := [], [];
    for i := 0 to |features|
      invariant fresh(w) && met == Entries(features[..i])
      invariant Drafted(objects, w.vertices, w.origins, met, all)
      invariant forall v | 0 <= v < |w.origins| :: w.origins[v].feature < i
    {
      objects, all := AddFeature(w, features[i], i, objects, met, all);
      met := met + EntriesOf(features[i], i, |features[i].objects|);
      assert features[..i + 1][..i] == features[..i];
    }
    assert features[..|features|] == features;
    vertices, written := w.vertices, all;
    DocumentHolds(vertices, met, written);
    DraftIsLeanExactlyWhen(objects, vertices, w.origins, met, written);
    NothingLostMeansAllKept(met);
  }

  method AddFeature(w: Writer, f: Feature, ghost number: nat, objects: map<string, Slim>, ghost met: seq<Entry>,
                    ghost written: seq<seq<Geometry>>)
    returns (objects': map<string, Slim>, ghost written': seq<seq<Geometry>>)
    requires WellIndexed(f) && Drafted(objects, w.vertices, w.origins, met, written)
    requires forall v | 0 <= v < |w.origins| :: w.origins[v].feature < number
    modifies w
    ensures Drafted(objects', w.vertices, w.origins, met + EntriesOf(f, number, |f.objects|), written')
    ensures forall v | 0 <= v < |w.origins| :: w.origins[v].feature <= number
  {
    objects' := objects;
    ghost var sofar, all := met, written;
    w.BeginFeature(number);
    for k := 0 to |f.objects|
      invariant w.Valid(f.vertices) && w.feature == number && sofar == met + EntriesOf(f, number, k)
      invariant Drafted(objects', w.vertices, w.origins, sofar, all)
      invariant forall v | 0 <= v < |w.origins| :: w.origins[v].feature <= number
    {
      objects', sofar, all := AddObject(w, f, k, objects', sofar, all);
      EntriesOneMore(f, number, k, met);
    }
    written' := all;
  }

  method AddObject(w: Writer, f: Feature, k: nat, objects: map<string, Slim>, ghost met: seq<Entry>,
                   ghost written: seq<seq<Geometry>>)
    returns (objects': map<string, Slim>, ghost met': seq<Entry>, ghost written': seq<seq<Geometry>>)
    requires WellIndexed(f) && k < |f.objects|
    requires w.Valid(f.vertices) && Drafted(objects, w.vertices, w.origins, met, written)
    requires forall v | 0 <= v < |w.origins| :: w.origins[v].feature <= w.feature
    modifies w
    ensures w.Valid(f.vertices) && w.feature == old(w.feature) && met' == met + [EntryAt(f, w.feature, k)]
    ensures Drafted(objects', w.vertices, w.origins, met', written')
    ensures forall v | 0 <= v < |w.origins| :: w.origins[v].feature <= w.feature
  {
    var (id, o) := f.objects[k];
    assert (id, o) in f.objects;
    ghost var before, originsBefore := w.vertices, w.origins;
    var geometries := WriteObject(w, f, o);
    ghost var e := EntryAt(f, w.feature, k);
    DraftedOneMore(objects, before, originsBefore, met, written, e, geometries, w.vertices, w.origins);
    OriginsWithin(originsBefore, w.origins, e.Needs(), w.feature);
    NeedsAreOwn(e);
    objects' := objects[id := Slim(o.kind, geometries)];
    met', written' := met + [e], written + [geometries];
  }

  lemma {:induction false} KeptOriginsAreOwn(kept: seq<Geometry>, f: Feature, n: nat)
    ensures forall o | o in KeptOrigins(kept, f, n) :: o.feature == n
  {
    if kept != [] {
      KeptOriginsAreOwn(kept[..|kept| - 1], f, n);
    }
  }

  lemma NeedsAreOwn(e: Entry)
    ensures forall o | o in e.Needs() :: o.feature == e.n
  {
    KeptOriginsAreOwn(Kept(e.o), e.f, e.n);
  }

  lemma OriginsWithin(before: seq<Origin>, origins: seq<Origin>, more: set<Origin>, n: nat)
    requires Extended(before, origins, more)
    requires forall v | 0 <= v < |before| :: before[v].feature <= n
    ensures (forall o | o in more :: o.feature == n) ==> forall v | 0 <= v < |origins| :: origins[v].feature <= n
  {
    forall v | 0 <= v < |origins|
      ensures origins[v] in before || origins[v] in more
    {
      assert origins[v] in Elements(origins);
    }
  }

  lemma EntriesOneMore(f: Feature, n: nat, k: nat, met: seq<Entry>)
    requires k < |f.objects|
    ensures met + EntriesOf(f, n, k + 1) == met + EntriesOf(f, n, k) + [EntryAt(f, n, k)]
  {
  }

  const FOOTPRINT := CityObject("Building", [Geometry("0", Index(0))], None)
  const NO_GEOMETRY := CityObject("Building", [], None)

  /** Two features with one object each, of one id; only the first keeps a geometry. */
  function TwoOfOneId(): seq<Feature> {
    [Feature([Vertex(0, 0, 0)], [("a", FOOTPRINT)]), Feature([], [("a", NO_GEOMETRY)])]
  }

  /** An object met again under its id leaves the vertices of the first one unused. */
  method RepeatedIdsLeaveDeadVertices() returns (objects: map<string, Slim>, vertices: seq<Vertex>)
    ensures !NothingLost(Entries(TwoOfOneId()))
    ensures |vertices| > 0 && forall v | 0 <= v < |vertices| :: v !in UsedIn(objects)
  {
    var features := TwoOfOneId();
    TwoAreWellIndexed();
    ghost var written;
    objects, vertices, written := BuildExcerpt(features);
    ghost var met := Entries(features);
    TheTwoEntries();
    FirstIsWritten(met, vertices, written);
    SecondIsKept(met, objects, vertices);
    assert 0 !in UsedIn(objects);
  }

  lemma TwoAreWellIndexed()
    ensures forall f | f in TwoOfOneId() :: WellIndexed(f)
  {
    forall f, o | f in TwoOfOneId() && o in f.objects
      ensures Indexed(o.1, |f.vertices|)
    {
      assert o.1.geometries != [] ==> o.1.geometries[..0] == [] && f.vertices == [Vertex(0, 0, 0)];
    }
  }

  lemma TheTwoEntries()
    ensures var first, second := TwoOfOneId()[0], TwoOfOneId()[1];
            Entries(TwoOfOneId()) == [Entry(first, 0, "a", FOOTPRINT), Entry(second, 1, "a", NO_GEOMETRY)]
  {
    var features := TwoOfOneId();
    assert features[..1] == [features[0]] && [features[0]][..0] == [];
    assert Entries([]) == [];
    assert EntriesOf(features[0], 0, 1) == [Entry(features[0], 0, "a", FOOTPRINT)];
    assert EntriesOf(features[1], 1, 1) == [Entry(features[1], 1, "a", NO_GEOMETRY)];
    assert Entries([features[0]]) == EntriesOf(features[0], 0, 1);
    assert Entries(features) == EntriesOf(features[0], 0, 1) + EntriesOf(features[1], 1, 1);
  }

  lemma FirstIsWritten(met: seq<Entry>, vertices: seq<Vertex>, written: seq<seq<Geometry>>)
    requires |met| > 0 && met[0].o == FOOTPRINT
    requires AllMet(written, vertices, met)
    ensures |vertices| > 0
  {
    assert met[0].o.geometries[..0] == [];
    assert Kept(met[0].o) == [Geometry("0", Index(0))];
    assert Preserves(written[0], vertices, met[0].f, Kept(met[0].o));
  }

  lemma SecondIsKept(met: seq<Entry>, objects: map<string, Slim>, vertices: seq<Vertex>)
    requires |met| == 2 && met[0].id == met[1].id && met[1].o == NO_GEOMETRY
    requires Holds(objects, vertices, met)
    ensures UsedIn(objects) == {}
  {
    forall id | id in objects
      ensures objects[id].geometries == []
    {
      if id != met[1].id {
        NotMet(met, id);
      }
      assert LastUnder(met, id) == Some(met[1]);
      assert Stands(objects[id], vertices, met[1]) && Kept(met[1].o) == [];
    }
  }
}
