/** The consumer in the program's own form: one tick as a method, its effects a chain of
    steps of the machine in ProvenanceConsumer. */
module ProvenanceTick {
  import opened Rdf
  import opened StatementProvenance
  import opened ProvenanceConsumer

  /** `states` lead from one to the next by `steps`. */
  ghost predicate IsChain(owner: OwnerMap, states: seq<State>, steps: seq<Step>) {
    && |states| == |steps| + 1
    && forall i | 0 <= i < |steps| ::
         Enabled(owner, states[i], steps[i]) && states[i + 1] == Next(owner, states[i], steps[i])
  }

  lemma ChainExtends(owner: OwnerMap, states: seq<State>, steps: seq<Step>, e: Step, s: State)
    requires IsChain(owner, states, steps)
    requires Enabled(owner, states[|steps|], e) && s == Next(owner, states[|steps|], e)
    ensures IsChain(owner, states + [s], steps + [e])
  {
  }

  // ── Collecting a batch ────────────────────────────────────────────────────

  /** What is collected for `ds` so far. */
  function Collected(parts: map<DatasetId, seq<Annotation>>, ds: DatasetId): seq<Annotation> {
    if ds in parts then parts[ds] else []
  }

  lemma ElementsAdd(a: seq<Annotation>, b: seq<Annotation>)
    ensures Elements(a + b) == Elements(a) + Elements(b)
  {
    assert forall i | 0 <= i < |a| :: (a + b)[i] == a[i];
    assert forall i | 0 <= i < |b| :: (a + b)[|a| + i] == b[i];
  }

  /** A row's annotations join those of its dataset, and no other's. */
  lemma ForDatasetGrows(owner: OwnerMap, rows: seq<Row>, k: nat, ds: DatasetId)
    requires k < |rows|
    ensures ForDataset(owner, rows[..k + 1], ds)
            == ForDataset(owner, rows[..k], ds)
               + (if IsData(owner, rows[k]) && owner[rows[k].graph.value].0 == ds then
                  Elements(AnnotationsOf(owner, rows[k])) else {})
  {
    assert rows[..k + 1] == rows[..k] + [rows[k]];
    var own := AnnotationsOf(owner, rows[k]);
    forall a | a in own
      ensures IsData(owner, rows[k]) && a.dataset == owner[rows[k].graph.value].0
    {
      AnnotationsHaveTheirDataset(owner, rows[k], a);
    }
    forall a
      ensures a in ForDataset(owner, rows[..k + 1], ds)
              <==> a in ForDataset(owner, rows[..k], ds) || (a in own && a.dataset == ds)
    {
      assert a in own && a.dataset == ds ==> rows[k] in rows[..k + 1];
    }
    assert forall a :: a in Elements(own) <==> a in own;
  }

  /** The annotations of the batch, by dataset. */
  method Collect(owner: OwnerMap, rows: seq<Row>) returns (parts: map<DatasetId, seq<Annotation>>)
    ensures forall ds :: Elements(Collected(parts, ds)) == ForDataset(owner, rows, ds)
    ensures parts.Keys <= Datasets(owner)
  {
    parts := map[];
    for k := 0 to |rows|
      invariant parts.Keys <= Datasets(owner)
      invariant forall ds :: Elements(Collected(parts, ds)) == ForDataset(owner, rows[..k], ds)
    {
      var row := rows[k];
      ghost var before := parts;
      if IsData(owner, row) {
        var (ds, profile) := owner[row.graph.value];
        var out, skipped := Annotate(row, ds, profile, Collected(parts, ds));
        parts := parts[ds := out];
        ElementsAdd(Collected(before, ds), AnnotationsOf(owner, row));
      }
      forall ds
        ensures Elements(Collected(parts, ds)) == ForDataset(owner, rows[..k + 1], ds)
      {
        ForDatasetGrows(owner, rows, k, ds);
        assert Elements(Collected(before, ds)) == ForDataset(owner, rows[..k], ds);
      }
    }
    assert rows[..|rows|] == rows;
  }

  /** Of the parts still pending, those that hold anything are what is still to do. */
  ghost predicate PartsMatch(parts: map<DatasetId, seq<Annotation>>, pending: set<DatasetId>,
                             todo: map<DatasetId, set<Annotation>>) {
    && todo.Keys <= pending <= parts.Keys
    && forall ds | ds in pending ::
         if parts[ds] == [] then ds !in todo else ds in todo && todo[ds] == Elements(parts[ds])
  }

  lemma PartDone(parts: map<DatasetId, seq<Annotation>>, pending: set<DatasetId>,
                 todo: map<DatasetId, set<Annotation>>, ds: DatasetId)
    requires PartsMatch(parts, pending, todo) && ds in pending
    ensures parts[ds] == [] ==> PartsMatch(parts, pending - {ds}, todo)
    ensures parts[ds] != [] ==>
              ds in todo && todo[ds] == Elements(parts[ds]) && PartsMatch(parts, pending - {ds}, todo - {ds})
  {
  }

  /** The collected parts that hold anything are the batch by dataset. */
  lemma BatchParts(owner: OwnerMap, rows: seq<Row>, parts: map<DatasetId, seq<Annotation>>)
    requires forall ds :: Elements(Collected(parts, ds)) == ForDataset(owner, rows, ds)
    requires parts.Keys <= Datasets(owner)
    ensures PartsMatch(parts, parts.Keys, ByDataset(owner, rows))
  {
    forall ds
      ensures ds in parts ==> Elements(parts[ds]) == ForDataset(owner, rows, ds)
      ensures ds !in parts ==> ForDataset(owner, rows, ds) == {}
      ensures ds in parts && parts[ds] != [] ==> parts[ds][0] in Elements(parts[ds])
    {
      assert Elements(Collected(parts, ds)) == ForDataset(owner, rows, ds);
    }
  }

  method CollectBatch(owner: OwnerMap, rows: seq<Row>) returns (parts: map<DatasetId, seq<Annotation>>)
    ensures PartsMatch(parts, parts.Keys, ByDataset(owner, rows))
  {
    parts := Collect(owner, rows);
    BatchParts(owner, rows, parts);
  }

  lemma SizeOfUnion<T>(a: set<T>, b: set<T>)
    ensures |a + b| == |a| + |b - a|
  {
    assert a + b == a + (b - a);
  }

  /** A tick that has read the batch `rows`. */
  function Begun(owner: OwnerMap, s: State, rows: seq<Row>): State {
    s.(tick := Some(InFlight(Head(rows), ByDataset(owner, rows))))
  }

  lemma ChainBegins(owner: OwnerMap, states: seq<State>, steps: seq<Step>, s: State, rows: seq<Row>)
    requires IsChain(owner, states, steps) && states[|steps|] == s
    requires s.tick.None? && s.cursor.Some? && rows == RowsAfter(s.log, s.cursor.value, BATCH) != []
    ensures IsChain(owner, states + [Begun(owner, s, rows)], steps + [Begin])
  {
    ChainExtends(owner, states, steps, Begin, Begun(owner, s, rows));
  }

  /** The last step is a write that failed; until then the graph had grown by `written`. */
  ghost predicate GaveUp(states: seq<State>, steps: seq<Step>, written: nat, from: set<Annotation>) {
    && |states| == |steps| + 1 && steps != [] && steps[|steps| - 1].ApplyFails?
    && |states[|steps| - 1].graph| == |from| + written
  }

  // ── One tick ──────────────────────────────────────────────────────────────

  class Consumer {
    const datasets: seq<OptedIn>
    var log: seq<Row>
    var cursor: Option<nat>
    var graph: set<Annotation>
    ghost var start: nat

    constructor (datasets: seq<OptedIn>, log: seq<Row>)
      requires datasets != [] && InOrder(log)
      ensures this.datasets == datasets && this.log == log && Init(View(None)) && Inv(Owners(datasets), View(None))
    {
      this.datasets := datasets;
      this.log := log;
      this.cursor := None;
      this.graph := {};
      this.start := 0;
    }

    ghost function View(tick: Option<InFlight>): State
      reads this
    {
      State(log, cursor, graph, tick, start)
    }

    /** The store logs the write of a dataset's annotations: one row of its provenance
        graph. What the row holds is never read: no dataset owns that graph's data. */
    method LogOwnWrite(ds: DatasetId) returns (row: Row)
      requires InOrder(log)
      modifies this`log
      ensures IsOwn(row) && row.seq_ > Head(old(log)) && log == old(log) + [row] && InOrder(log)
    {
      row := Row(Head(log) + 1, "", Some(PROVENANCE_PREFIX + ds), true, true, [], [], None, None, "");
      LongerLogInOrder(log, row);
      log := log + [row];
    }

    /** Write the annotations of one dataset: all of them, or, failing, some. */
    method WriteDataset(ds: DatasetId, quads: set<Annotation>, ghost owner: OwnerMap, ghost tick: InFlight)
      returns (inserted: nat, ok: bool, ghost e: Step)
      requires InOrder(log) && ds in tick.todo && tick.todo[ds] == quads
      modifies this`log, this`graph
      ensures Enabled(owner, old(View(Some(tick))), e) && InOrder(log)
      ensures !ok ==> e.ApplyFails? && View(None) == Next(owner, old(View(Some(tick))), e)
      ensures ok ==>
                e.Apply? && e.ds == ds
                    && View(Some(tick.(todo := tick.todo - {ds}))) == Next(owner, old(View(Some(tick))), e)
      ensures ok ==> inserted == |graph| - |old(graph)|
    {
      inserted := |quads - graph|;
      ok := *;
      if ok {
        SizeOfUnion(graph, quads);
        graph := graph + quads;
        var row := LogOwnWrite(ds);
        e := Apply(ds, row);
      } else {
        assert {} <= quads;
        var part: set<Annotation> :| part <= quads;
        var logged: bool := *;
        ghost var rowsLogged := [];
        graph := graph + part;
        if logged {
          var row := LogOwnWrite(ds);
          rowsLogged := [row];
        }
        e := ApplyFails(ds, part, rowsLogged);
      }
    }

    /** How far the batch is written: the rows logged, and what is still to do. */
    ghost predicate Progress(owner: OwnerMap, s: State, tick: InFlight)
      reads this
    {
      && s.tick.Some? && s.log <= log && s.graph <= graph && cursor == s.cursor && start == s.start && InOrder(log)
      && (forall row | row in log[|s.log|..] :: IsOwn(row))
      && |log| - |s.log| + |tick.todo| == |s.tick.value.todo|
      && tick.last == s.tick.value.last
      && graph + Pending(View(Some(tick))) == s.graph + Pending(s)
    }

    lemma ProgressOn(owner: OwnerMap, s: State, tick: InFlight, before: State, e: Step)
      requires e.Apply? && Enabled(owner, before, e) && before.tick == Some(tick)
      requires s.tick.Some? && s.log <= before.log && s.graph <= before.graph && before.cursor == s.cursor
               && before.start == s.start
      requires forall row | row in before.log[|s.log|..] :: IsOwn(row)
      requires |before.log| - |s.log| + |tick.todo| == |s.tick.value.todo| && tick.last == s.tick.value.last
      requires before.graph + Pending(before) == s.graph + Pending(s)
      requires InOrder(log) && View(Some(tick.(todo := tick.todo - {e.ds}))) == Next(owner, before, e)
      ensures Progress(owner, s, tick.(todo := tick.todo - {e.ds}))
    {
      ApplyMoves(before, e.ds);
      assert log == before.log + [e.row];
      assert log[|s.log|..] == before.log[|s.log|..] + [e.row];
      assert tick.todo.Keys == (tick.todo - {e.ds}).Keys + {e.ds};
      assert |tick.todo.Keys| == |(tick.todo - {e.ds}).Keys| + 1;
    }

    /** A batch written to the end, and the cursor moved, is a whole tick. */
    lemma BatchIsQuietTick(owner: OwnerMap, s0: State, s: State, s': State)
      requires InOrder(s0.log) && s0.cursor.Some? && RowsAfter(s0.log, s0.cursor.value, BATCH) != []
      requires s == s0.(tick := Some(InFlight(Head(RowsAfter(s0.log, s0.cursor.value, BATCH)),
                                              ByDataset(owner, RowsAfter(s0.log, s0.cursor.value, BATCH)))))
      requires s0.tick.None? && Progress(owner, s, InFlight(s.tick.value.last, map[]))
      requires s' == View(None).(cursor := Some(s.tick.value.last))
      ensures QuietTick(owner, s0, s')
    {
      BatchIsPending(owner, s0.log, s0.cursor.value, s);
      assert Pending(View(Some(InFlight(s.tick.value.last, map[])))) == {};
    }

    /** Write one dataset's part of the batch; the steps made lead on to the new state. */
    method WritePart(ds: DatasetId, quads: set<Annotation>, ghost owner: OwnerMap, ghost s: State, ghost tick: InFlight,
                     ghost before: seq<State>, ghost made: seq<Step>)
      returns (inserted: nat, ok: bool, ghost states: seq<State>, ghost steps: seq<Step>)
      requires InOrder(log) && ds in tick.todo && tick.todo[ds] == quads && Progress(owner, s, tick)
      requires IsChain(owner, before, made) && before[|made|] == View(Some(tick))
      modifies this`log, this`graph
      ensures IsChain(owner, states, steps) && states[0] == before[0]
      ensures ok ==>
                Progress(owner, s, tick.(todo := tick.todo - {ds}))
                    && states[|steps|] == View(Some(tick.(todo := tick.todo - {ds})))
      ensures ok ==> inserted == |graph| - |old(graph)|
      ensures !ok ==> GaveUp(states, steps, 0, old(graph)) && states[|steps|] == View(None)
    {
      ghost var from := View(Some(tick));
      ghost var e;
      inserted, ok, e := WriteDataset(ds, quads, owner, tick);
      ghost var to := if ok then View(Some(tick.(todo := tick.todo - {ds}))) else View(None);
      if ok {
        ProgressOn(owner, s, tick, from, e);
      }
      ChainExtends(owner, before, made, e, to);
      states, steps := before + [to], made + [e];
    }

    /** Write what was collected, dataset by dataset. */
    method WriteBatch(parts: map<DatasetId, seq<Annotation>>, ghost owner: OwnerMap, ghost s: State,
                      ghost before: seq<State>, ghost made: seq<Step>)
      returns (written: nat, ok: bool, ghost states: seq<State>, ghost steps: seq<Step>)
      requires s.tick.Some? && View(s.tick) == s && InOrder(log)
      requires PartsMatch(parts, parts.Keys, s.tick.value.todo)
      requires IsChain(owner, before, made) && before[|made|] == s
      modifies this`log, this`graph
      ensures IsChain(owner, states, steps) && states[0] == before[0]
      ensures ok ==>
                Progress(owner, s, InFlight(s.tick.value.last, map[]))
                    && states[|steps|] == View(Some(InFlight(s.tick.value.last, map[])))
      ensures ok ==> written == |graph| - |s.graph|
      ensures !ok ==> states[|steps|] == View(None)
      ensures !ok ==> GaveUp(states, steps, written, s.graph)
    {
      written, ok, states, steps := 0, true, before, made;
      ghost var tick := s.tick.value;
      var pending := parts.Keys;
      while pending != {}
        invariant PartsMatch(parts, pending, tick.todo)
        invariant IsChain(owner, states, steps) && states[0] == before[0] && states[|steps|] == View(Some(tick))
        invariant Progress(owner, s, tick) && ok && written == |graph| - |s.graph|
        decreases pending
      {
        var ds :| ds in pending;
        PartDone(parts, pending, tick.todo, ds);
        pending := pending - {ds};
        if parts[ds] != [] {
          var inserted;
          inserted, ok, states, steps := WritePart(ds, Elements(parts[ds]), owner, s, tick, states, steps);
          if !ok {
            return;
          }
          written := written + inserted;
          tick := tick.(todo := tick.todo - {ds});
        }
      }
      assert tick == InFlight(s.tick.value.last, map[]);
    }

    /** One turn of the consumer. Unless a write fails (`ok` is false), the whole batch is
        annotated and the cursor moves past it. The count is of what was new, the write
        that failed left out. */
    method Tick() returns (written: nat, ok: bool, ghost states: seq<State>, ghost steps: seq<Step>)
      requires Inv(Owners(datasets), View(None))
      modifies this
      ensures IsChain(Owners(datasets), states, steps) && states[0] == old(View(None)) && states[|steps|] == View(None)
      // The first turn only sets the cursor: what the log holds by then is not annotated.
      ensures old(cursor).None? ==> ok && cursor == Some(Head(old(log))) && graph == old(graph) && log == old(log)
      ensures ok && old(cursor).Some? ==> QuietTick(Owners(datasets), old(View(None)), View(None))
      ensures ok ==> written == |graph| - |old(graph)|
      ensures !ok ==> cursor == old(cursor) && GaveUp(states, steps, written, old(graph))
    {
      var owner := FindOwners(datasets);
      states, steps, ok, written := [View(None)], [], true, 0;
      if cursor.None? {
        cursor := Some(Head(log));
        start := Head(log);
        ChainExtends(owner, states, steps, Begin, View(None));
        states, steps := states + [View(None)], steps + [Begin];
        return;
      }
      var rows := RowsAfter(log, cursor.value, BATCH);
      if rows == [] {
        return;
      }
      written, ok, states, steps := AnnotateBatch(owner, rows, states, steps);
    }

    /** Annotate the batch and move the cursor past it. */
    method AnnotateBatch(owner: OwnerMap, rows: seq<Row>, ghost before: seq<State>, ghost made: seq<Step>)
      returns (written: nat, ok: bool, ghost states: seq<State>, ghost steps: seq<Step>)
      requires InOrder(log) && cursor.Some? && rows == RowsAfter(log, cursor.value, BATCH) != []
      requires IsChain(owner, before, made) && before[|made|] == View(None)
      modifies this`log, this`graph, this`cursor
      ensures IsChain(owner, states, steps) && states[0] == before[0] && states[|steps|] == View(None)
      ensures ok ==> QuietTick(owner, old(View(None)), View(None))
      ensures ok ==> written == |graph| - |old(graph)|
      ensures !ok ==> cursor == old(cursor) && GaveUp(states, steps, written, old(graph))
    {
      var parts := CollectBatch(owner, rows);
      ghost var s0 := View(None);
      ghost var s := Begun(owner, s0, rows);
      ChainBegins(owner, before, made, s0, rows);
      written, ok, states, steps := WriteBatch(parts, owner, s, before + [s], made + [Begin]);
      if ok {
        states, steps := MoveCursor(owner, Head(rows), s0, s, states, steps);
      }
    }

    method MoveCursor(owner: OwnerMap, last: nat, ghost s0: State, ghost s: State, ghost before: seq<State>,
                      ghost made: seq<Step>)
      returns (ghost states: seq<State>, ghost steps: seq<Step>)
      requires InOrder(s0.log) && s0.cursor.Some? && RowsAfter(s0.log, s0.cursor.value, BATCH) != [] && s0.tick.None?
      requires var rows := RowsAfter(s0.log, s0.cursor.value, BATCH); last == Head(rows) && s == Begun(owner, s0, rows)
      requires Progress(owner, s, InFlight(last, map[]))
      requires IsChain(owner, before, made) && before[|made|] == View(Some(InFlight(last, map[])))
      modifies this`cursor
      ensures IsChain(owner, states, steps) && states[0] == before[0] && states[|steps|] == View(None)
      ensures QuietTick(owner, s0, View(None))
    {
      BatchIsQuietTick(owner, s0, s, View(None).(cursor := Some(last)));
      cursor := Some(last);
      ChainExtends(owner, before, made, Finish, View(None));
      states, steps := before + [View(None)], made + [Finish];
    }
  }
}
