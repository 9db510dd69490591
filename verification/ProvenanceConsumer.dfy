/** The change-log consumer that writes the annotations: it tails the log on a cursor,
    a batch at a time, and reads back the rows its own writes append. */
module ProvenanceConsumer {
  import opened Rdf
  import opened StatementProvenance

  /** The most rows one tick reads. */
  const BATCH: nat := 2000

  /** A tick under way: the sequence number its batch ends with, and the annotations
      still to be written, per dataset. */
  datatype InFlight = InFlight(last: nat, todo: map<DatasetId, set<Annotation>>)

  /** `start` is history: the log's head when the consumer first ticked. */
  datatype State = State(
    log: seq<Row>,
    cursor: Option<nat>,
    graph: set<Annotation>,
    tick: Option<InFlight>,
    start: nat)

  function Head(log: seq<Row>): nat {
    if log == [] then 0 else log[|log| - 1].seq_
  }

  ghost predicate InOrder(log: seq<Row>) {
    && (forall i | 0 <= i < |log| :: 0 < log[i].seq_ <= Head(log))
    && forall i, j | 0 <= i < j < |log| :: log[i].seq_ < log[j].seq_
  }

  /** The first rows above `since`, at most `limit`. */
  function RowsAfter(log: seq<Row>, since: nat, limit: nat): seq<Row> {
    if log == [] || limit == 0 then []
    else if log[0].seq_ > since then [log[0]] + RowsAfter(log[1..], since, limit - 1)
    else RowsAfter(log[1..], since, limit)
  }

  // ── Annotations of a stretch of the log ───────────────────────────────────

  /** The one-shot annotation of the rows above `lo` and at or below `hi`. */
  function Between(owner: OwnerMap, log: seq<Row>, lo: nat, hi: nat): set<Annotation> {
    set row, a | row in log && lo < row.seq_ <= hi && a in AnnotationsOf(owner, row) :: a
  }

  /** What a batch asks to be written to the graph of `ds`. */
  function ForDataset(owner: OwnerMap, rows: seq<Row>, ds: DatasetId): set<Annotation> {
    set row, a | row in rows && a in AnnotationsOf(owner, row) && a.dataset == ds :: a
  }

  function Datasets(owner: OwnerMap): set<DatasetId> {
    set g | g in owner :: owner[g].0
  }

  /** The annotations of a batch, by dataset; datasets with none are left out. */
  function ByDataset(owner: OwnerMap, rows: seq<Row>): map<DatasetId, set<Annotation>> {
    map ds | ds in Datasets(owner) && ForDataset(owner, rows, ds) != {} :: ForDataset(owner, rows, ds)
  }

  // ── The protocol ──────────────────────────────────────────────────────────

  datatype Step =
    | Change(row: Row)                                               // a data write, at any moment
    | Begin                                                          // a tick reads the cursor and its batch
    | Apply(ds: DatasetId, row: Row)                                 // its annotations are written; so is their row
    | ApplyFails(ds: DatasetId, part: set<Annotation>, rows: seq<Row>)  // partly written at most; the tick gives up
    | Finish                                                         // the cursor moves
    | Crash

  predicate IsOwn(row: Row) {
    row.graph.Some? && IsProvenanceGraph(row.graph.value)
  }

  ghost predicate Enabled(owner: OwnerMap, s: State, e: Step) {
    match e
    case Change(row) => !IsOwn(row) && row.seq_ > Head(s.log)
    case Begin => s.tick.None?
    case Apply(ds, row) => s.tick.Some? && ds in s.tick.value.todo && IsOwn(row) && row.seq_ > Head(s.log)
    case ApplyFails(ds, part, rows) =>
      && s.tick.Some? && ds in s.tick.value.todo && part <= s.tick.value.todo[ds]
      && |rows| <= 1 && forall row | row in rows :: IsOwn(row) && row.seq_ > Head(s.log)
    case Finish => s.tick.Some? && s.tick.value.todo == map[]
    case Crash => true
  }

  function Next(owner: OwnerMap, s: State, e: Step): State
    requires Enabled(owner, s, e)
  {
    match e
    case Change(row) => s.(log := s.log + [row])
    case Begin =>
      if s.cursor.None? then s.(cursor := Some(Head(s.log)), start := Head(s.log))
      else
        var rows := RowsAfter(s.log, s.cursor.value, BATCH);
        if rows == [] then s else s.(tick := Some(InFlight(Head(rows), ByDataset(owner, rows))))
    case Apply(ds, row) =>
      s.(graph := s.graph + s.tick.value.todo[ds],
         log := s.log + [row],
         tick := Some(s.tick.value.(todo := s.tick.value.todo - {ds})))
    case ApplyFails(ds, part, rows) => s.(graph := s.graph + part, log := s.log + rows, tick := None)
    case Finish => s.(cursor := Some(s.tick.value.last), tick := None)
    case Crash => s.(tick := None)
  }

  /** The log may hold anything when the process starts; nothing is annotated before the
      first tick. */
  ghost predicate Init(s: State) {
    InOrder(s.log) && s.cursor.None? && s.graph == {} && s.tick.None? && s.start == 0
  }

  ghost predicate IsRun(owner: OwnerMap, states: seq<State>, steps: seq<Step>) {
    && |states| == |steps| + 1
    && Init(states[0])
    && forall i | 0 <= i < |steps| ::
         Enabled(owner, states[i], steps[i]) && states[i + 1] == Next(owner, states[i], steps[i])
  }

  /** What the tick under way still has to write. */
  function Pending(s: State): set<Annotation> {
    if s.tick.Some? then set ds, a | ds in s.tick.value.todo && a in s.tick.value.todo[ds] :: a else {}
  }

  /** Rows that no dataset has opted in for have no annotations; nor have the consumer's own. */
  ghost predicate OwnerOk(owner: OwnerMap) {
    forall g | g in owner :: !IsProvenanceGraph(g)
  }

  ghost predicate Inv(owner: OwnerMap, s: State) {
    && InOrder(s.log)
    && (s.cursor.None? ==> s.graph == {} && s.tick.None?)
    && (s.cursor.Some? ==>
          && s.start <= s.cursor.value <= Head(s.log)
          // Every row the cursor has passed is annotated, and nothing is but rows of the log.
          && Between(owner, s.log, s.start, s.cursor.value) <= s.graph
          && s.graph <= Between(owner, s.log, s.start, Head(s.log)))
    && (s.tick.Some? ==>
          && s.cursor.value < s.tick.value.last <= Head(s.log)
          && Between(owner, s.log, s.cursor.value, s.tick.value.last) <= s.graph + Pending(s)
          && Pending(s) <= Between(owner, s.log, s.start, Head(s.log)))
  }

  // ── Every step keeps the invariant ────────────────────────────────────────

  lemma BetweenSplits(owner: OwnerMap, log: seq<Row>, lo: nat, mid: nat, hi: nat)
    requires lo <= mid <= hi
    ensures Between(owner, log, lo, hi) == Between(owner, log, lo, mid) + Between(owner, log, mid, hi)
  {
  }

  /** New rows add no annotations below the old head. */
  lemma BetweenInLongerLog(owner: OwnerMap, log: seq<Row>, more: seq<Row>, lo: nat, hi: nat)
    requires forall row | row in more :: row.seq_ > Head(log)
    ensures hi <= Head(log) ==> Between(owner, log + more, lo, hi) == Between(owner, log, lo, hi)
    ensures Between(owner, log, lo, hi) <= Between(owner, log + more, lo, hi)
  {
    assert forall i | 0 <= i < |log| :: (log + more)[i] == log[i];
    assert forall i | |log| <= i < |log + more| :: (log + more)[i] in more;
  }

  lemma LongerLogInOrder(log: seq<Row>, row: Row)
    requires InOrder(log) && row.seq_ > Head(log)
    ensures InOrder(log + [row]) && Head(log + [row]) == row.seq_
  {
  }

  lemma {:induction false} AllAbove(log: seq<Row>, since: nat, limit: nat)
    requires forall k | 0 <= k < |log| :: log[k].seq_ > since
    ensures RowsAfter(log, since, limit) == if limit < |log| then log[..limit] else log
  {
    if log != [] && limit > 0 {
      AllAbove(log[1..], since, limit - 1);
    }
  }

  lemma SliceOfRest<T>(s: seq<T>, i: nat, n: nat)
    requires 1 + i + n <= |s|
    ensures s[1..][i..i + n] == s[i + 1..i + 1 + n]
  {
  }

  /** A batch is the stretch of the log right above the cursor. */
  lemma {:induction false} RowsAfterIsAStretch(log: seq<Row>, since: nat, limit: nat) returns (i: nat, n: nat)
    requires forall i, j | 0 <= i < j < |log| :: log[i].seq_ < log[j].seq_
    requires limit > 0
    ensures i + n <= |log| && n <= limit && RowsAfter(log, since, limit) == log[i..i + n]
    ensures forall k | 0 <= k < i :: log[k].seq_ <= since
    ensures forall k | i <= k < |log| :: log[k].seq_ > since
    ensures n < limit ==> i + n == |log|
  {
    if log == [] || log[0].seq_ > since {
      i, n := 0, if limit < |log| then limit else |log|;
      AllAbove(log, since, limit);
    } else {
      i, n := RowsAfterIsAStretch(log[1..], since, limit);
      SliceOfRest(log, i, n);
      i := i + 1;
    }
  }

  lemma BatchFacts(owner: OwnerMap, log: seq<Row>, since: nat)
    requires InOrder(log) && RowsAfter(log, since, BATCH) != []
    ensures var rows := RowsAfter(log, since, BATCH);
            && since < Head(rows) <= Head(log)
            && (forall row | row in rows :: row in log && since < row.seq_ <= Head(rows))
            && (forall row | row in log && since < row.seq_ <= Head(rows) :: row in rows)
  {
    var rows := RowsAfter(log, since, BATCH);
    var i, n := RowsAfterIsAStretch(log, since, BATCH);
    assert rows[|rows| - 1] == log[i + n - 1];
    forall row | row in log && since < row.seq_ <= Head(rows)
      ensures row in rows
    {
      var k :| 0 <= k < |log| && log[k] == row;
      assert i <= k < i + n;
      assert rows[k - i] == row;
    }
  }

  /** An empty batch means the cursor is at the head. */
  lemma EmptyBatch(log: seq<Row>, since: nat)
    requires InOrder(log) && since <= Head(log)
    ensures RowsAfter(log, since, BATCH) == [] <==> since == Head(log) || log == []
  {
    var i, n := RowsAfterIsAStretch(log, since, BATCH);
    if log != [] && since < Head(log) {
      assert i <= |log| - 1;
    }
  }

  lemma AnnotationsHaveTheirDataset(owner: OwnerMap, row: Row, a: Annotation)
    requires a in AnnotationsOf(owner, row)
    ensures IsData(owner, row) && a.dataset == owner[row.graph.value].0
  {
    var (ds, profile) := owner[row.graph.value];
    if Carried(row) {
      var adds := ChangesAnnotations("add", row.added, row, ds, profile);
      var removes := ChangesAnnotations("remove", row.removed, row, ds, profile);
      ChangesHaveDataset("add", row.added, row, ds, profile);
      ChangesHaveDataset("remove", row.removed, row, ds, profile);
      InOneOf(adds, removes, SkippedAnnotations(row, ds, CountBlank(row.added) + CountBlank(row.removed)), a);
    }
  }

  lemma ChangeHasDataset(op: string, q: Quad, row: Row, ds: DatasetId, profile: Profile)
    ensures forall a | a in ChangeAnnotations(op, q, row, ds, profile) :: a.dataset == ds
  {
    forall a | a in ChangeAnnotations(op, q, row, ds, profile)
      ensures a.dataset == ds
    {
      ChangeIsAbout(op, q, row, ds, profile, a);
    }
  }

  lemma {:induction false} ChangesHaveDataset(op: string, quads: seq<Quad>, row: Row, ds: DatasetId, profile: Profile)
    ensures forall a | a in ChangesAnnotations(op, quads, row, ds, profile) :: a.dataset == ds
  {
    if quads != [] {
      ChangesHaveDataset(op, quads[..|quads| - 1], row, ds, profile);
      ChangeHasDataset(op, quads[|quads| - 1], row, ds, profile);
    }
  }

  /** A tick sets out to write exactly the annotations of its batch. */
  lemma BatchIsPending(owner: OwnerMap, log: seq<Row>, since: nat, s: State)
    requires InOrder(log) && RowsAfter(log, since, BATCH) != []
    requires var rows := RowsAfter(log, since, BATCH); s.tick == Some(InFlight(Head(rows), ByDataset(owner, rows)))
    ensures Pending(s) == Between(owner, log, since, Head(RowsAfter(log, since, BATCH)))
  {
    var rows := RowsAfter(log, since, BATCH);
    BatchFacts(owner, log, since);
    forall row, a | row in rows && a in AnnotationsOf(owner, row)
      ensures a in Pending(s)
    {
      AnnotationsHaveTheirDataset(owner, row, a);
      assert a in ForDataset(owner, rows, a.dataset);
      assert a.dataset in s.tick.value.todo;
    }
  }

  /** The tick's part of the invariant survives new rows. */
  lemma AppendKeepsTick(owner: OwnerMap, s: State, more: seq<Row>, s': State)
    requires Inv(owner, s) && s.tick.Some? && forall row | row in more :: row.seq_ > Head(s.log)
    requires s' == s.(log := s.log + more) && Head(s.log) <= Head(s'.log)
    ensures s.cursor.value < s.tick.value.last <= Head(s'.log)
    ensures Between(owner, s'.log, s.cursor.value, s.tick.value.last) <= s.graph + Pending(s)
    ensures Pending(s') == Pending(s) <= Between(owner, s'.log, s.start, Head(s'.log))
  {
    BetweenInLongerLog(owner, s.log, more, s.start, Head(s.log));
    BetweenInLongerLog(owner, s.log, more, s.cursor.value, s.tick.value.last);
    BetweenSplits(owner, s'.log, s.start, Head(s.log), Head(s'.log));
  }

  lemma AppendKeepsGraph(owner: OwnerMap, s: State, more: seq<Row>, s': State)
    requires Inv(owner, s) && s.cursor.Some? && forall row | row in more :: row.seq_ > Head(s.log)
    requires s' == s.(log := s.log + more) && Head(s.log) <= Head(s'.log)
    ensures Between(owner, s'.log, s.start, s.cursor.value) <= s.graph <= Between(owner, s'.log, s.start, Head(s'.log))
  {
    BetweenInLongerLog(owner, s.log, more, s.start, Head(s.log));
    BetweenInLongerLog(owner, s.log, more, s.start, s.cursor.value);
    BetweenSplits(owner, s'.log, s.start, Head(s.log), Head(s'.log));
  }

  /** New rows above the head leave everything said about the old ones true. */
  lemma AppendKeeps(owner: OwnerMap, s: State, more: seq<Row>, s': State)
    requires Inv(owner, s) && |more| <= 1 && forall row | row in more :: row.seq_ > Head(s.log)
    requires s' == s.(log := s.log + more)
    ensures Inv(owner, s')
  {
    if |more| == 1 {
      LongerLogInOrder(s.log, more[0]);
      assert more == [more[0]];
      if s.cursor.Some? {
        AppendKeepsGraph(owner, s, more, s');
      }
      if s.tick.Some? {
        AppendKeepsTick(owner, s, more, s');
      }
    } else {
      assert s' == s;
    }
  }

  /** Writing a dataset's annotations moves them from what is pending to the graph. */
  lemma ApplyMoves(s: State, ds: DatasetId)
    requires s.tick.Some? && ds in s.tick.value.todo
    ensures var s' := s.(graph := s.graph + s.tick.value.todo[ds],
                         tick := Some(s.tick.value.(todo := s.tick.value.todo - {ds})));
            s'.graph + Pending(s') == s.graph + Pending(s) && Pending(s') <= Pending(s)
                && s'.graph <= s.graph + Pending(s)
  {
    var s' := s.(graph := s.graph + s.tick.value.todo[ds],
                 tick := Some(s.tick.value.(todo := s.tick.value.todo - {ds})));
    forall d, a | d in s.tick.value.todo && a in s.tick.value.todo[d]
      ensures a in s'.graph + Pending(s')
    {
      if d != ds {
        assert d in s'.tick.value.todo;
      }
    }
  }

  lemma BeginKeepsInv(owner: OwnerMap, s: State)
    requires Inv(owner, s) && s.tick.None?
    ensures Inv(owner, Next(owner, s, Begin))
  {
    var s' := Next(owner, s, Begin);
    if s.cursor.Some? && RowsAfter(s.log, s.cursor.value, BATCH) != [] {
      BatchFacts(owner, s.log, s.cursor.value);
      BatchIsPending(owner, s.log, s.cursor.value, s');
      BetweenSplits(owner, s.log, s.start, s.cursor.value, Head(s.log));
      BetweenSplits(owner, s.log, s.cursor.value, s'.tick.value.last, Head(s.log));
    }
  }

  lemma StepKeepsInv(owner: OwnerMap, s: State, e: Step)
    requires Inv(owner, s) && Enabled(owner, s, e)
    ensures Inv(owner, Next(owner, s, e))
  {
    match e {
      case Change(row) => AppendKeeps(owner, s, [row], Next(owner, s, e));
      case Begin => BeginKeepsInv(owner, s);
      case Apply(ds, row) =>
        ApplyMoves(s, ds);
        AppendKeeps(owner,
                    s.(graph := s.graph + s.tick.value.todo[ds],
                       tick := Some(s.tick.value.(todo := s.tick.value.todo - {ds}))),
                    [row], Next(owner, s, e));
      case ApplyFails(ds, part, rows) =>
        assert part <= Pending(s);
        AppendKeeps(owner, s.(graph := s.graph + part, tick := None), rows, Next(owner, s, e));
      case Finish =>
        assert Pending(s) == {};
        BetweenSplits(owner, s.log, s.start, s.cursor.value, s.tick.value.last);
      case Crash =>
    }
  }

  lemma {:induction false} InvHolds(owner: OwnerMap, states: seq<State>, steps: seq<Step>, i: nat)
    requires IsRun(owner, states, steps) && i < |states|
    ensures Inv(owner, states[i])
  {
    if i > 0 {
      InvHolds(owner, states, steps, i - 1);
      StepKeepsInv(owner, states[i - 1], steps[i - 1]);
    } else {
      assert Between(owner, states[0].log, 0, 0) == {};
    }
  }

  // ── The results over whole runs ───────────────────────────────────────────

  /** Through data writes, ticks, failed applies and crashes between any two steps, the
      provenance graph holds every annotation of the rows the cursor has passed, and
      nothing but annotations of rows of the log (from the first tick on). */
  lemma NothingMissedNothingInvented(owner: OwnerMap, states: seq<State>, steps: seq<Step>, i: nat)
    requires IsRun(owner, states, steps) && i < |states| && states[i].cursor.Some?
    ensures var s := states[i];
            Between(owner, s.log, s.start, s.cursor.value) <= s.graph <= Between(owner, s.log, s.start, Head(s.log))
  {
    InvHolds(owner, states, steps, i);
  }

  /** Before the first tick nothing is annotated; it sets the cursor to the head of the log
      as that tick finds it, and from there the rows count. */
  lemma {:induction false} FirstTickStartsAtHead(owner: OwnerMap, states: seq<State>, steps: seq<Step>, b: nat, i: nat)
    requires IsRun(owner, states, steps) && b < |steps| && steps[b].Begin? && i < |states|
    requires forall k | 0 <= k < b :: !steps[k].Begin?
    ensures i <= b ==> states[i].cursor.None? && states[i].tick.None? && states[i].graph == {}
    ensures i > b ==> states[i].cursor.Some? && states[i].start == Head(states[b].log)
  {
    if i > 0 {
      FirstTickStartsAtHead(owner, states, steps, b, i - 1);
      assert Enabled(owner, states[i - 1], steps[i - 1]);
    }
  }

  /** Nothing is annotated retroactively: over every run, each annotation in the graph is one
      of a row above the head of the log at the first tick. Of those rows, every one that the
      cursor has passed is annotated. */
  lemma NothingIsRetroactive(owner: OwnerMap, states: seq<State>, steps: seq<Step>, b: nat, i: nat)
    requires IsRun(owner, states, steps) && b < |steps| && steps[b].Begin? && i < |states|
    requires forall k | 0 <= k < b :: !steps[k].Begin?
    ensures forall a | a in states[i].graph ::
              exists row :: row in states[i].log && row.seq_ > Head(states[b].log) && a in AnnotationsOf(owner, row)
    ensures i > b ==>
              && states[i].cursor.Some?
              && forall row, a | row in states[i].log && Head(states[b].log) < row.seq_ <= states[i].cursor.value
                                 && a in AnnotationsOf(owner, row) ::
                   a in states[i].graph
  {
    FirstTickStartsAtHead(owner, states, steps, b, i);
    InvHolds(owner, states, steps, i);
  }

  /** Once the cursor is at the head, the graph is the one-shot annotation of the log. */
  lemma CaughtUpIsOneShot(owner: OwnerMap, states: seq<State>, steps: seq<Step>, i: nat)
    requires IsRun(owner, states, steps) && i < |states| && states[i].cursor == Some(Head(states[i].log))
    ensures states[i].graph == Between(owner, states[i].log, states[i].start, Head(states[i].log))
  {
    InvHolds(owner, states, steps, i);
  }

  // ── Quiescence ────────────────────────────────────────────────────────────

  function UnreadRows(log: seq<Row>, since: nat): nat {
    if log == [] then 0 else UnreadRows(log[..|log| - 1], since) + if log[|log| - 1].seq_ > since then 1 else 0
  }

  function UnreadData(owner: OwnerMap, log: seq<Row>, since: nat): nat {
    if log == [] then 0
    else UnreadData(owner, log[..|log| - 1], since)
         + if log[|log| - 1].seq_ > since && IsData(owner, log[|log| - 1]) then 1 else 0
  }

  /** A whole tick without a failure, while no data is written: the batch's annotations
      are written, one row of the consumer's own is appended for each dataset that has
      any, and the cursor moves to the end of the batch. */
  ghost predicate QuietTick(owner: OwnerMap, s: State, s': State)
    requires s.cursor.Some?
  {
    var rows := RowsAfter(s.log, s.cursor.value, BATCH);
    if rows == [] then s' == s
    else
      && s.log <= s'.log
      && (forall row | row in s'.log[|s.log|..] :: IsOwn(row))
      && |s'.log| - |s.log| == |ByDataset(owner, rows)|
      && InOrder(s'.log)
      && s' == s.(log := s'.log, graph := s.graph + Between(owner, s.log, s.cursor.value, Head(rows)),
                  cursor := Some(Head(rows)))
  }

  lemma {:induction false} UnreadOfLongerLog(owner: OwnerMap, log: seq<Row>, more: seq<Row>, since: nat)
    requires forall row | row in more :: !IsData(owner, row)
    ensures UnreadData(owner, log + more, since) == UnreadData(owner, log, since)
  {
    if more == [] {
      assert log + more == log;
    } else {
      var prefix := more[..|more| - 1];
      assert (log + more)[..|log + more| - 1] == log + prefix;
      UnreadOfLongerLog(owner, log, prefix, since);
    }
  }

  /** What is above `since` is counted by where it starts. */
  lemma {:induction false} UnreadIsTheRest(log: seq<Row>, since: nat, i: nat)
    requires i <= |log| && forall k | 0 <= k < i :: log[k].seq_ <= since
    requires forall k | i <= k < |log| :: log[k].seq_ > since
    ensures UnreadRows(log, since) == |log| - i
  {
    if log != [] {
      UnreadIsTheRest(log[..|log| - 1], since, if i == |log| then i - 1 else i);
    }
  }

  lemma BatchIsFull(log: seq<Row>, since: nat)
    requires InOrder(log)
    ensures var rows, unread := RowsAfter(log, since, BATCH), UnreadRows(log, since);
            && (rows == [] <==> unread == 0)
            && (rows != [] ==> UnreadRows(log, Head(rows)) == if unread <= 2000 then 0 else unread - 2000)
  {
    var rows := RowsAfter(log, since, BATCH);
    var i, n := RowsAfterIsAStretch(log, since, BATCH);
    UnreadIsTheRest(log, since, i);
    if n > 0 {
      assert Head(rows) == log[i + n - 1].seq_;
      UnreadIsTheRest(log, Head(rows), i + n);
    }
  }

  /** A tick reads 2000 rows of the log, or all there are if these are fewer. */
  lemma TickReadsABatch(owner: OwnerMap, s: State, s': State)
    requires Inv(owner, s) && s.cursor.Some? && QuietTick(owner, s, s')
    ensures s'.cursor.Some?
    ensures var unread := UnreadRows(s.log, s.cursor.value);
            UnreadRows(s.log, s'.cursor.value) == if unread <= 2000 then 0 else unread - 2000
  {
    BatchIsFull(s.log, s.cursor.value);
  }

  /** Reading on never leaves more unread; reading a row leaves less of it. */
  lemma {:induction false} ReadingOn(owner: OwnerMap, log: seq<Row>, since: nat, to: nat)
    requires since <= to
    ensures UnreadRows(log, to) <= UnreadRows(log, since) && UnreadData(owner, log, to) <= UnreadData(owner, log, since)
    ensures (exists row :: row in log && since < row.seq_ <= to) ==> UnreadRows(log, to) < UnreadRows(log, since)
    ensures (exists row :: row in log && since < row.seq_ <= to && IsData(owner, row)) ==>
              UnreadData(owner, log, to) < UnreadData(owner, log, since)
  {
    if log != [] {
      var prefix, last := log[..|log| - 1], log[|log| - 1];
      assert log == prefix + [last];
      ReadingOn(owner, prefix, since, to);
    }
  }

  lemma {:induction false} NothingUnread(owner: OwnerMap, log: seq<Row>, since: nat)
    requires forall row | row in log :: row.seq_ <= since
    ensures UnreadRows(log, since) == 0 && UnreadData(owner, log, since) == 0
  {
    if log != [] {
      NothingUnread(owner, log[..|log| - 1], since);
    }
  }

  lemma NewRowsAreAboveTheHead(log: seq<Row>, more: seq<Row>)
    requires InOrder(log + more)
    ensures forall row | row in more :: row.seq_ > Head(log)
    ensures Head(log) <= Head(log + more)
  {
    var all := log + more;
    forall k | 0 <= k < |more|
      ensures more[k].seq_ > Head(log)
    {
      assert all[|log| + k] == more[k];
      assert log != [] ==> all[|log| - 1] == log[|log| - 1];
    }
    assert more != [] ==> Head(all) == more[|more| - 1].seq_;
    assert more == [] ==> all == log;
  }

  /** A batch written on top of a sound graph leaves it sound, up to the batch's end. */
  lemma BatchKeepsGraph(owner: OwnerMap, log: seq<Row>, more: seq<Row>, graph: set<Annotation>, start: nat, cursor: nat,
                        last: nat)
    requires forall row | row in more :: row.seq_ > Head(log)
    requires start <= cursor < last <= Head(log) <= Head(log + more)
    requires Between(owner, log, start, cursor) <= graph <= Between(owner, log, start, Head(log))
    ensures Between(owner, log + more, start, last)
            <= graph + Between(owner, log, cursor, last)
            <= Between(owner, log + more, start, Head(log + more))
  {
    BetweenInLongerLog(owner, log, more, start, Head(log));
    BetweenInLongerLog(owner, log, more, start, last);
    BetweenSplits(owner, log, start, cursor, last);
    BetweenSplits(owner, log, start, last, Head(log));
    BetweenSplits(owner, log + more, start, Head(log), Head(log + more));
  }

  lemma QuietTickKeepsInv(owner: OwnerMap, s: State, s': State)
    requires Inv(owner, s) && s.cursor.Some? && s.tick.None? && QuietTick(owner, s, s')
    ensures Inv(owner, s') && s'.tick.None?
  {
    var rows := RowsAfter(s.log, s.cursor.value, BATCH);
    if rows != [] {
      var more := s'.log[|s.log|..];
      assert s'.log == s.log + more;
      BatchFacts(owner, s.log, s.cursor.value);
      NewRowsAreAboveTheHead(s.log, more);
      BatchKeepsGraph(owner, s.log, more, s.graph, s.start, s.cursor.value, Head(rows));
    }
  }

  lemma ReadingDataUsesItUp(owner: OwnerMap, log: seq<Row>, more: seq<Row>, since: nat, to: nat, row: Row)
    requires OwnerOk(owner) && forall r | r in more :: IsOwn(r)
    requires row in log && since < row.seq_ <= to && IsData(owner, row)
    ensures UnreadData(owner, log + more, to) < UnreadData(owner, log, since)
  {
    UnreadOfLongerLog(owner, log, more, to);
    ReadingOn(owner, log, since, to);
  }

  lemma RowOfBatch(owner: OwnerMap, log: seq<Row>, since: nat, row: Row)
    requires InOrder(log) && row in RowsAfter(log, since, BATCH)
    ensures row in log && since < row.seq_ <= Head(RowsAfter(log, since, BATCH))
  {
    BatchFacts(owner, log, since);
  }

  lemma DataBatchUsesUpData(owner: OwnerMap, s: State, s': State, row: Row)
    requires OwnerOk(owner) && InOrder(s.log) && s.cursor.Some? && QuietTick(owner, s, s')
    requires row in RowsAfter(s.log, s.cursor.value, BATCH) && IsData(owner, row)
    ensures s'.cursor.Some? && UnreadData(owner, s'.log, s'.cursor.value) < UnreadData(owner, s.log, s.cursor.value)
  {
    RowOfBatch(owner, s.log, s.cursor.value, row);
    var more := s'.log[|s.log|..];
    assert s'.log == s.log + more;
    ReadingDataUsesItUp(owner, s.log, more, s.cursor.value, s'.cursor.value, row);
  }

  lemma OtherBatchWritesNothing(owner: OwnerMap, s: State, s': State)
    requires InOrder(s.log) && s.cursor.Some? && QuietTick(owner, s, s')
             && RowsAfter(s.log, s.cursor.value, BATCH) != []
    requires forall row | row in RowsAfter(s.log, s.cursor.value, BATCH) :: !IsData(owner, row)
    ensures s'.cursor.Some? && s'.log == s.log && s'.graph == s.graph
    ensures UnreadData(owner, s'.log, s'.cursor.value) <= UnreadData(owner, s.log, s.cursor.value)
    ensures UnreadRows(s'.log, s'.cursor.value) < UnreadRows(s.log, s.cursor.value)
  {
    var batch := RowsAfter(s.log, s.cursor.value, BATCH);
    BatchFacts(owner, s.log, s.cursor.value);
    NoDataNoAnnotations(owner, s.log, batch, s.cursor.value);
    assert batch[|batch| - 1] in s.log;
    ReadingOn(owner, s.log, s.cursor.value, s'.cursor.value);
  }

  /** A tick that is not at the head uses up data rows, or writes nothing and uses up rows. */
  lemma QuietTickReadsOn(owner: OwnerMap, s: State, s': State)
    requires OwnerOk(owner) && Inv(owner, s) && s.cursor.Some? && s.cursor.value < Head(s.log)
             && QuietTick(owner, s, s')
    ensures s'.cursor.Some?
    ensures var (data, rows) := (UnreadData(owner, s.log, s.cursor.value), UnreadRows(s.log, s.cursor.value));
            var (data', rows') := (UnreadData(owner, s'.log, s'.cursor.value), UnreadRows(s'.log, s'.cursor.value));
            data' < data || (data' == data && rows' < rows && s'.log == s.log && s'.graph == s.graph)
  {
    var batch := RowsAfter(s.log, s.cursor.value, BATCH);
    EmptyBatch(s.log, s.cursor.value);
    if exists row :: row in batch && IsData(owner, row) {
      var row :| row in batch && IsData(owner, row);
      DataBatchUsesUpData(owner, s, s', row);
    } else {
      OtherBatchWritesNothing(owner, s, s');
    }
  }

  lemma NoDataNoAnnotations(owner: OwnerMap, log: seq<Row>, batch: seq<Row>, since: nat)
    requires InOrder(log) && batch == RowsAfter(log, since, BATCH) != []
    requires forall row | row in batch :: !IsData(owner, row)
    ensures ByDataset(owner, batch) == map[] && Between(owner, log, since, Head(batch)) == {}
  {
    BatchFacts(owner, log, since);
    assert forall ds :: ForDataset(owner, batch, ds) == {};
  }

  function Iterate(tick: State -> State, s: State, n: nat): State
    decreases n
  {
    if n == 0 then s else Iterate(tick, tick(s), n - 1)
  }

  /** Once data writes stop, ticking reaches the head of the log, though its own writes
      append rows it reads back; from then on it writes nothing, and the graph is the
      one-shot annotation of the log. */
  lemma {:induction false} TickingQuiesces(owner: OwnerMap, tick: State -> State, s: State) returns (n: nat)
    requires OwnerOk(owner) && Inv(owner, s) && s.cursor.Some? && s.tick.None?
    requires forall t {:trigger tick(t)} | Inv(owner, t) && t.cursor.Some? && t.tick.None? ::
               QuietTick(owner, t, tick(t))
    ensures var end := Iterate(tick, s, n);
            && end.cursor == Some(Head(end.log))
            && tick(end) == end
            && end.graph == Between(owner, end.log, end.start, Head(end.log))
    decreases UnreadData(owner, s.log, s.cursor.value), UnreadRows(s.log, s.cursor.value)
  {
    assert QuietTick(owner, s, tick(s));
    if s.cursor.value == Head(s.log) {
      n := 0;
      EmptyBatch(s.log, s.cursor.value);
    } else {
      QuietTickKeepsInv(owner, s, tick(s));
      QuietTickReadsOn(owner, s, tick(s));
      n := TickingQuiesces(owner, tick, tick(s));
      n := n + 1;
    }
  }
}
