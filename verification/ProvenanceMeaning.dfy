/** From the run of the consumer to what its graph says: with the cursor at the head of the
    log, the provenance graph determines the data. */
module ProvenanceMeaning {
  import opened Rdf
  import opened StatementProvenance
  import opened ProvenanceConsumer

  lemma {:induction false} AnnotationsOfAllRows(owner: OwnerMap, rows: seq<Row>, a: Annotation)
    ensures a in AllAnnotations(owner, rows) <==> exists row :: row in rows && a in AnnotationsOf(owner, row)
  {
    if rows != [] {
      var prefix, last := rows[..|rows| - 1], rows[|rows| - 1];
      assert rows == prefix + [last];
      AnnotationsOfAllRows(owner, prefix, a);
      if a in AllAnnotations(owner, prefix) {
        var row :| row in prefix && a in AnnotationsOf(owner, row);
        assert row in rows;
      }
    }
  }

  /** If no data was written up to the consumer's start, the annotations of the log from
      there on are all there are. */
  lemma OneShotIsAll(owner: OwnerMap, log: seq<Row>, start: nat)
    requires InOrder(log) && forall row | row in log && row.seq_ <= start :: !IsData(owner, row)
    ensures Between(owner, log, start, Head(log)) == AllAnnotations(owner, log)
  {
    forall a
      ensures a in Between(owner, log, start, Head(log)) <==> a in AllAnnotations(owner, log)
    {
      AnnotationsOfAllRows(owner, log, a);
      if row :| row in log && a in AnnotationsOf(owner, row) {
        var k :| 0 <= k < |log| && log[k] == row;
        assert start < row.seq_ <= Head(log);
      }
    }
  }

  /** Through data writes, ticks, failed applies and crashes: whenever the cursor is at the
      head, a statement of a graph that opted in is in the data exactly when the provenance
      graph says its last change was an addition. The log may hold the consumer's own rows
      and rows of graphs that did not opt in. */
  lemma CaughtUpGraphDeterminesData(owner: OwnerMap, states: seq<State>, steps: seq<Step>, i: nat, q: Quad)
    requires IsRun(owner, states, steps) && i < |states| && states[i].cursor == Some(Head(states[i].log))
    requires Faithful(owner, states[i].log)
    requires forall row | row in states[i].log && row.seq_ <= states[i].start :: !IsData(owner, row)
    requires q.graph.Some? && q.graph.value in owner && !HasBlank(q)
    ensures q in Data(states[i].log) <==> LastAdded(states[i].graph, owner[q.graph.value].0, q)
  {
    var s := states[i];
    InvHolds(owner, states, steps, i);
    CaughtUpIsOneShot(owner, states, steps, i);
    OneShotIsAll(owner, s.log, s.start);
    AnnotationsDetermineData(owner, s.log, q);
  }

  /** A log with a row of the consumer's own, as after a tick, is among those spoken of. */
  lemma OwnRowsAreAllowed(owner: OwnerMap, log: seq<Row>, own: Row)
    requires OwnerOk(owner) && Faithful(owner, log) && IsOwn(own) && own.seq_ > Head(log)
    requires forall q | q in own.added + own.removed :: q.graph == own.graph
    ensures Faithful(owner, log + [own])
  {
    assert (log + [own])[..|log|] == log;
    assert forall q | q in own.added :: q in own.added + own.removed;
    assert forall q | q in own.removed :: q in own.added + own.removed;
  }
}
