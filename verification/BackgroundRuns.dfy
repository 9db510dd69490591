/** The debounced background runs of `owl2-dl` datasets: a map of pending runs shared by
    the writers that schedule them and one worker thread per entry. */
module BackgroundRuns {
  import opened Rdf

  type DatasetId = string

  /** What the map knows of a dataset: the time its quiet period ends, whether its worker is
      at a run, and whether that run must be followed by another. */
  datatype Pending = Pending(deadline: nat, running: bool, again: bool)

  type PendingMap = map<DatasetId, Pending>

  // ── The critical sections ─────────────────────────────────────────────────

  /** A write schedules a run: a new entry (and so a new worker), or a later deadline and,
      when the current run has started, one more run. */
  function Scheduled(p: PendingMap, id: DatasetId, deadline: nat): PendingMap {
    if id !in p then p[id := Pending(deadline, false, false)]
    else p[id := Pending(deadline, p[id].running, p[id].again || p[id].running)]
  }

  /** Whether the worker finds the quiet period over. */
  predicate QuietOverAt(p: PendingMap, id: DatasetId, now: nat) {
    id in p ==> p[id].deadline <= now
  }

  /** The worker starts a run. */
  function Started(p: PendingMap, id: DatasetId): PendingMap {
    if id in p then p[id := p[id].(running := true, again := false)] else p
  }

  /** The worker is done with a run: whether it goes round again, and the map. */
  function Finished(p: PendingMap, id: DatasetId): (bool, PendingMap) {
    if id in p && p[id].again then (true, p[id := p[id].(running := false, again := false)]) else (false, p - {id})
  }

  /** The shared map, each method one section under its lock. */
  class Registry {
    var pending: PendingMap

    constructor ()
      ensures pending == map[]
    {
      pending := map[];
    }

    /** Whether the caller must spawn a worker. */
    method Schedule(id: DatasetId, deadline: nat) returns (spawn: bool)
      modifies this
      ensures pending == Scheduled(old(pending), id, deadline)
      ensures spawn <==> id !in old(pending)
    {
      if id in pending {
        var p := pending[id].(deadline := deadline);
        if p.running {
          p := p.(again := true);
        }
        pending := pending[id := p];
        return false;
      }
      pending := pending[id := Pending(deadline, false, false)];
      spawn := true;
    }

    /** Whether the quiet period is over at `now`. */
    method QuietOver(id: DatasetId, now: nat) returns (over: bool)
      ensures over <==> QuietOverAt(pending, id, now)
    {
      over := if id in pending then pending[id].deadline <= now else true;
    }

    method Start(id: DatasetId)
      modifies this
      ensures pending == Started(old(pending), id)
    {
      if id in pending {
        pending := pending[id := pending[id].(running := true, again := false)];
      }
    }

    /** Whether the worker goes round again. */
    method Finish(id: DatasetId) returns (again: bool)
      modifies this
      ensures (again, pending) == Finished(old(pending), id)
    {
      if id in pending && pending[id].again {
        pending := pending[id := pending[id].(running := false, again := false)];
        return true;
      }
      pending := pending - {id};
      again := false;
    }
  }

  /** Writers schedule runs of `id` meanwhile: with the first deadlines of `calls`. */
  method Meanwhile(r: Registry, id: DatasetId, calls: seq<nat>) returns (rest: seq<nat>)
    requires id in r.pending
    modifies r
    ensures |rest| <= |calls| && rest == calls[|calls| - |rest|..]
    ensures id in r.pending && r.pending - {id} == old(r.pending) - {id}
    ensures r.pending[id].running == old(r.pending[id].running)
    ensures r.pending[id].again <==> old(r.pending[id].again) || (r.pending[id].running && |rest| < |calls|)
  {
    rest := calls;
    var more: bool := *;
    while more && rest != []
      invariant |rest| <= |calls| && rest == calls[|calls| - |rest|..]
      invariant id in r.pending && r.pending - {id} == old(r.pending) - {id}
      invariant r.pending[id].running == old(r.pending[id].running)
      invariant r.pending[id].again <==> old(r.pending[id].again) || (r.pending[id].running && |rest| < |calls|)
      decreases rest
    {
      var spawn := r.Schedule(id, rest[0]);
      rest := rest[1..];
      more := *;
    }
  }

  /** One run of a worker, while others schedule the runs `calls` at any moment: `left` is
      how many of these calls were still to come when it began. */
  method RunOnce(r: Registry, id: DatasetId, calls: seq<nat>) returns (rest: seq<nat>, again: bool, ghost left: nat)
    requires id in r.pending && !r.pending[id].running && !r.pending[id].again
    modifies r
    ensures |rest| <= left <= |calls| && rest == calls[|calls| - |rest|..]
    ensures again <==> |rest| < left
    ensures r.pending - {id} == old(r.pending) - {id}
    ensures id in r.pending <==> again
    ensures again ==> !r.pending[id].running && !r.pending[id].again
  {
    var before := Meanwhile(r, id, calls);
    var now: nat :| r.pending[id].deadline <= now;
    var over := r.QuietOver(id, now);
    before := Meanwhile(r, id, before);
    ghost var waited := r.pending;
    r.Start(id);
    assert r.pending - {id} == waited - {id};
    var during := Meanwhile(r, id, before);
    ghost var worked := r.pending;
    again := r.Finish(id);
    assert r.pending - {id} == worked - {id};
    rest, left := during, |before|;
  }

  /** A worker, from its spawning to its end, while others schedule the runs `calls` at any
      moment. The entry is gone, and the last run began after every call made by then. The
      reasoner ran in the runs, counted from 1, at which the dataset was `configured` for it. */
  method Work(r: Registry, id: DatasetId, calls: seq<nat>, configured: nat -> bool)
    returns (rest: seq<nat>, runs: nat, reasoned: set<nat>, ghost covered: nat)
    requires id in r.pending && !r.pending[id].running && !r.pending[id].again
    modifies r
    ensures r.pending == old(r.pending) - {id}
    ensures |rest| <= |calls| && rest == calls[|calls| - |rest|..] && covered == |calls| - |rest|
    ensures 1 <= runs <= 1 + covered
    ensures forall n :: n in reasoned <==> 1 <= n <= runs && configured(n)
  {
    rest, runs, reasoned, covered := calls, 0, {}, 0;
    var again := true;
    while again
      invariant |rest| <= |calls| && rest == calls[|calls| - |rest|..]
      invariant covered <= |calls| - |rest| && runs <= covered + 1
      invariant r.pending - {id} == old(r.pending) - {id}
      invariant forall n :: n in reasoned <==> 1 <= n <= runs && configured(n)
      invariant again ==> id in r.pending && !r.pending[id].running && !r.pending[id].again && runs <= |calls| - |rest|
      invariant !again ==> id !in r.pending && runs > 0 && covered == |calls| - |rest|
      decreases again, |rest|
    {
      ghost var left;
      rest, again, left := RunOnce(r, id, rest);
      runs, covered := runs + 1, |calls| - left;
      if configured(runs) {
        reasoned := reasoned + {runs};
      }
    }
  }

  // ── The protocol ──────────────────────────────────────────────────────────

  /** Where a worker is: inserted but not spawned, waiting out the quiet period, past it,
      past the section that starts a run, past the run. */
  datatype Pc = Spawning | Waiting | Ready | Working | Finishing

  datatype Worker = Worker(id: DatasetId, pc: Pc)

  /** What has happened to a dataset: how many times a run was scheduled, how many of these
      calls came before the last start, the starts since the last call, the calls before
      the reasoner last ran, and whether the last start led to the reasoner running. */
  datatype History = History(calls: nat, covered: nat, starts: nat, ranAfter: nat, ran: bool)

  /** `dl`: the datasets configured for `owl2-dl` in `materialize` mode. `lost`: those
      whose worker panicked or could not be spawned. */
  datatype State = State(
    pending: PendingMap,
    workers: map<nat, Worker>,
    dl: set<DatasetId>,
    lost: set<DatasetId>,
    histories: map<DatasetId, History>)
  {
    function Of(id: DatasetId): History {
      if id in histories then histories[id] else History(0, 0, 0, 0, false)
    }

    /** `w` is a live worker of `id`. */
    predicate Serves(w: nat, id: DatasetId) {
      w in workers && workers[w].id == id
    }
  }

  datatype Event =
    // A run is scheduled; `newWorker` is its worker, if one is spawned.
    | Call(id: DatasetId, newWorker: nat, deadline: nat)
    | Spawn(w: nat)
    | SpawnFails(w: nat)
    | QuietOver(w: nat, now: nat)
    | Start(w: nat)
    | Execute(w: nat)                    // reads the configuration and runs the reasoner if it still applies
    | Panic(w: nat)
    | Finish(w: nat)
    | Configure(id: DatasetId, on: bool)

  predicate Enabled(s: State, e: Event) {
    match e
    case Call(_, newWorker, _) => newWorker !in s.workers
    case Spawn(w) => w in s.workers && s.workers[w].pc.Spawning?
    case SpawnFails(w) => w in s.workers && s.workers[w].pc.Spawning?
    case QuietOver(w, now) => w in s.workers && s.workers[w].pc.Waiting? && QuietOverAt(s.pending, s.workers[w].id, now)
    case Start(w) => w in s.workers && s.workers[w].pc.Ready?
    case Execute(w) => w in s.workers && s.workers[w].pc.Working?
    case Panic(w) => w in s.workers && s.workers[w].pc.Working?
    case Finish(w) => w in s.workers && s.workers[w].pc.Finishing?
    case Configure(_, _) => true
  }

  function Moved(s: State, w: nat, pc: Pc): map<nat, Worker>
    requires w in s.workers
  {
    s.workers[w := s.workers[w].(pc := pc)]
  }

  function Next(s: State, e: Event): State
    requires Enabled(s, e)
  {
    match e
    case Call(id, newWorker, deadline) =>
      s.(pending := Scheduled(s.pending, id, deadline),
         workers := if id in s.pending then s.workers else s.workers[newWorker := Worker(id, Spawning)],
         histories := s.histories[id := s.Of(id).(calls := s.Of(id).calls + 1, starts := 0)])
    case Spawn(w) => s.(workers := Moved(s, w, Waiting))
    case QuietOver(w, _) => s.(workers := Moved(s, w, Ready))
    case Start(w) =>
      var id := s.workers[w].id;
      s.(pending := Started(s.pending, id),
         workers := Moved(s, w, Working),
         histories := s.histories[id := s.Of(id).(covered := s.Of(id).calls, starts := s.Of(id).starts + 1)])
    case Execute(w) =>
      var id := s.workers[w].id;
      s.(workers := Moved(s, w, Finishing),
         histories := s.histories[id := if id in s.dl then s.Of(id).(ranAfter := s.Of(id).calls, ran := true)
                                        else s.Of(id).(ran := false)])
    case Finish(w) =>
      var id := s.workers[w].id;
      var (again, pending) := Finished(s.pending, id);
      s.(pending := pending, workers := if again then Moved(s, w, Waiting) else s.workers - {w})
    case Configure(id, on) => s.(dl := if on then s.dl + {id} else s.dl - {id})
    // A dead worker leaves its entry behind.
    case SpawnFails(w) => s.(workers := s.workers - {w}, lost := s.lost + {s.workers[w].id})
    case Panic(w) => s.(workers := s.workers - {w}, lost := s.lost + {s.workers[w].id})
  }

  ghost predicate IsRun(states: seq<State>, events: seq<Event>) {
    && |states| == |events| + 1
    && states[0].pending == map[] && states[0].workers == map[] && states[0].lost == {} && states[0].histories == map[]
    && forall i | 0 <= i < |events| :: Enabled(states[i], events[i]) && states[i + 1] == Next(states[i], events[i])
  }

  // ── What every step keeps ─────────────────────────────────────────────────

  /** Where the worker of an entry stands. */
  predicate WorkerInv(p: Pending, pc: Pc, h: History) {
    if pc.Working? || pc.Finishing? then
      && p.running
      && (if p.again then h.starts == 0 else h.covered == h.calls && h.starts == 1)
      && (pc.Finishing? && h.ran && !p.again ==> h.ranAfter == h.calls)
    else
      !p.running && !p.again && h.starts == 0
  }

  ghost predicate DatasetInv(s: State, id: DatasetId) {
    && (id in s.lost ==> id in s.pending && forall w :: !s.Serves(w, id))
    && (id in s.pending && id !in s.lost ==> exists w :: s.Serves(w, id))
    && (forall w | s.Serves(w, id) :: id in s.pending && WorkerInv(s.pending[id], s.workers[w].pc, s.Of(id)))
    && (forall w, w' | s.Serves(w, id) && s.Serves(w', id) :: w == w')
    && (id !in s.pending && s.Of(id).calls > 0 ==>
          s.Of(id).covered == s.Of(id).calls && s.Of(id).starts == 1
              && (s.Of(id).ran ==> s.Of(id).ranAfter == s.Of(id).calls))
    && (s.Of(id).calls == 0 ==> id !in s.pending && s.Of(id).starts == 0)
  }

  ghost predicate Inv(s: State) {
    forall id: DatasetId :: DatasetInv(s, id)
  }

  /** The dataset an event is about. */
  function Subject(s: State, e: Event): DatasetId
    requires Enabled(s, e)
  {
    if e.Call? || e.Configure? then e.id else s.workers[e.w].id
  }

  lemma OthersUntouched(s: State, e: Event, id: DatasetId)
    requires Enabled(s, e) && id != Subject(s, e) && DatasetInv(s, id)
    ensures DatasetInv(Next(s, e), id)
  {
    var s' := Next(s, e);
    assert forall w :: s.Serves(w, id) <==> s'.Serves(w, id);
    assert forall w | s.Serves(w, id) :: s'.workers[w] == s.workers[w];
    assert s'.Of(id) == s.Of(id);
  }

  lemma SubjectKeepsInv(s: State, e: Event)
    requires Enabled(s, e) && DatasetInv(s, Subject(s, e))
    ensures DatasetInv(Next(s, e), Subject(s, e))
  {
    var id, s' := Subject(s, e), Next(s, e);
    if e.Call? {
      if id !in s.pending {
        assert s'.Serves(e.newWorker, id);
      } else {
        assert forall w :: s.Serves(w, id) <==> s'.Serves(w, id);
      }
    } else if !e.Configure? {
      assert s.Serves(e.w, id);
      forall w | s'.Serves(w, id)
        ensures w == e.w
      {
        assert s.Serves(w, id);
      }
      assert e.w in s'.workers ==> s'.Serves(e.w, id);
    } else {
      assert forall w :: s.Serves(w, id) <==> s'.Serves(w, id);
    }
  }

  lemma StepKeepsInv(s: State, e: Event)
    requires Inv(s) && Enabled(s, e)
    ensures Inv(Next(s, e))
  {
    forall id: DatasetId
      ensures DatasetInv(Next(s, e), id)
    {
      if id == Subject(s, e) {
        SubjectKeepsInv(s, e);
      } else {
        OthersUntouched(s, e, id);
      }
    }
  }

  lemma {:induction false} InvHolds(states: seq<State>, events: seq<Event>, i: nat)
    requires IsRun(states, events) && i < |states|
    ensures Inv(states[i])
  {
    if i > 0 {
      InvHolds(states, events, i - 1);
      StepKeepsInv(states[i - 1], events[i - 1]);
    }
  }

  // ── The results ───────────────────────────────────────────────────────────

  /** No write is lost: when a worker removes its entry, the last run it started began
      after every call made so far, and if the dataset was still configured for it then
      the reasoner ran after every call. */
  lemma NoWriteIsLost(states: seq<State>, events: seq<Event>, i: nat)
    requires IsRun(states, events) && i < |events|
    requires events[i].Finish? && Subject(states[i], events[i]) !in states[i + 1].pending
    ensures var h := states[i + 1].Of(Subject(states[i], events[i]));
            h.covered == h.calls && (h.ran ==> h.ranAfter == h.calls)
  {
    InvHolds(states, events, i);
    var id := Subject(states[i], events[i]);
    assert DatasetInv(states[i], id);
    assert states[i].Serves(events[i].w, id);
  }

  /** The reasoner runs exactly when the dataset is configured for it: once past a run, a
      worker made the step that reads the configuration after its last start, that decided
      whether the reasoner ran, and any call since then is one more run to make. */
  lemma {:induction false} LastExecute(states: seq<State>, events: seq<Event>, i: nat, w: nat) returns (k: nat)
    requires IsRun(states, events) && i < |states| && w in states[i].workers && states[i].workers[w].pc.Finishing?
    ensures k < i && events[k] == Execute(w) && states[k].Serves(w, states[i].workers[w].id)
    ensures states[i].Of(states[i].workers[w].id).ran <==> states[i].workers[w].id in states[k].dl
    ensures forall j | k < j < i :: events[j] != Start(w)
    ensures OnceMoreIfCalled(states[i], states[i].workers[w].id, events, k, i)
  {
    InvHolds(states, events, i - 1);
    var s, e := states[i - 1], events[i - 1];
    assert Enabled(s, e) && states[i] == Next(s, e);
    if e == Execute(w) {
      k := i - 1;
    } else {
      StillFinishing(s, e, w);
      k := LastExecute(states, events, i - 1, w);
    }
  }

  /** A call for `id` after step `k` and before `i` is one more run to make in `s`. */
  ghost predicate OnceMoreIfCalled(s: State, id: DatasetId, events: seq<Event>, k: nat, i: nat)
    requires i <= |events|
  {
    id in s.pending && !s.pending[id].again ==> forall j | k < j < i :: !(events[j].Call? && events[j].id == id)
  }

  lemma StillFinishing(s: State, e: Event, w: nat)
    requires Inv(s) && Enabled(s, e) && e != Execute(w)
    requires w in Next(s, e).workers && Next(s, e).workers[w].pc.Finishing?
    ensures w in s.workers && s.workers[w] == Next(s, e).workers[w] && e != Start(w)
    ensures var id := s.workers[w].id;
            && Next(s, e).Of(id).ran == s.Of(id).ran
            && (id in Next(s, e).pending && !Next(s, e).pending[id].again ==>
                  id in s.pending && !s.pending[id].again && !(e.Call? && e.id == id))
  {
    var id := Next(s, e).workers[w].id;
    assert DatasetInv(s, id) && s.Serves(w, id);
    if !e.Call? && !e.Configure? {
      assert s.workers[e.w].id == id ==> s.Serves(e.w, id);
    }
  }

  /** A write to a dataset configured for it is reasoned over: when a worker removes its
      entry, and the dataset was configured from some call on until then, the reasoner ran
      after every call. */
  lemma WritesAreReasonedOver(states: seq<State>, events: seq<Event>, c: nat, i: nat)
    requires IsRun(states, events) && c < i < |events|
    requires events[i].Finish? && Subject(states[i], events[i]) !in states[i + 1].pending
    requires events[c].Call? && events[c].id == Subject(states[i], events[i])
    requires forall k | c < k <= i :: events[c].id in states[k].dl
    ensures var h := states[i + 1].Of(events[c].id);
            h.ran && h.ranAfter == h.covered == h.calls
  {
    NoWriteIsLost(states, events, i);
    InvHolds(states, events, i);
    assert DatasetInv(states[i], events[c].id) && states[i].Serves(events[i].w, events[c].id);
    var k := LastExecute(states, events, i, events[i].w);
  }

  /** Nor does it run for a dataset that is not: not if no step since its worker's last
      start found it configured. */
  lemma UnconfiguredDatasetsAreNotReasonedOver(states: seq<State>, events: seq<Event>, b: nat, i: nat)
    requires IsRun(states, events) && b < i < |events| && events[i].Finish? && events[b] == Start(events[i].w)
    requires forall k | b < k < i && events[k] == Execute(events[i].w) :: Subject(states[i], events[i]) !in states[k].dl
    ensures !states[i + 1].Of(Subject(states[i], events[i])).ran
  {
    var k := LastExecute(states, events, i, events[i].w);
  }

  /** A dataset is configured for the reasoner as it was last configured. */
  lemma {:induction false} ConfiguredAsLast(states: seq<State>, events: seq<Event>, c: nat, i: nat)
    requires IsRun(states, events) && c < i < |states| && events[c].Configure?
    requires forall k | c < k < i :: !(events[k].Configure? && events[k].id == events[c].id)
    ensures events[c].id in states[i].dl <==> events[c].on
  {
    if c + 1 < i {
      ConfiguredAsLast(states, events, c, i - 1);
    }
  }

  /** A worker waits until the deadline that the latest call set. */
  lemma {:induction false} DeadlineOfLastCall(states: seq<State>, events: seq<Event>, c: nat, i: nat)
    requires IsRun(states, events) && c < i < |states| && events[c].Call?
    requires forall k | c < k < i :: !(events[k].Call? && events[k].id == events[c].id)
    ensures var id := events[c].id;
            && (id in states[i].pending ==> states[i].pending[id].deadline == events[c].deadline)
            && (i < |events| && events[i].QuietOver? && Subject(states[i], events[i]) == id ==>
                  events[i].now >= events[c].deadline)
  {
    InvHolds(states, events, i);
    assert DatasetInv(states[i], events[c].id);
    if c + 1 < i {
      DeadlineOfLastCall(states, events, c, i - 1);
    }
    if i < |events| && events[i].QuietOver? && Subject(states[i], events[i]) == events[c].id {
      assert states[i].Serves(events[i].w, events[c].id);
    }
  }

  /** A dataset has an entry exactly when it has a worker, and then exactly one, unless it
      lost a worker; then it has an entry and no worker. */
  lemma EntryHasOneWorker(states: seq<State>, events: seq<Event>, i: nat, id: DatasetId)
    requires IsRun(states, events) && i < |states|
    ensures (id in states[i].pending <==> exists w :: states[i].Serves(w, id)) <==> id !in states[i].lost
    ensures forall w, w' | states[i].Serves(w, id) && states[i].Serves(w', id) :: w == w'
  {
    InvHolds(states, events, i);
    assert DatasetInv(states[i], id);
  }

  /** However many calls arrive, at most one run starts after the last of them; once the
      entry is gone, exactly one did. */
  lemma CallsCoalesce(states: seq<State>, events: seq<Event>, i: nat, id: DatasetId)
    requires IsRun(states, events) && i < |states| && id !in states[i].lost
    ensures states[i].Of(id).starts <= 1
    ensures states[i].Of(id).calls > 0 && id !in states[i].pending ==> states[i].Of(id).starts == 1
  {
    InvHolds(states, events, i);
    assert DatasetInv(states[i], id);
    if id in states[i].pending {
      var w :| states[i].Serves(w, id);
    }
  }

  /** The steps a worker at `pc` has left if nothing more is scheduled. */
  function StepsLeft(p: Pending, pc: Pc): nat {
    match pc
    case Spawning => 5
    case Waiting => 4
    case Ready => 3
    case Working => if p.again then 6 else 2
    case Finishing => if p.again then 5 else 1
  }

  ghost function Left(s: State, id: DatasetId): nat {
    if id in s.pending && exists w :: s.Serves(w, id) then
      var w :| s.Serves(w, id);
      StepsLeft(s.pending[id], s.workers[w].pc)
    else 0
  }

  /** `e` is a step of a worker of `id`. */
  predicate WorkerStep(s: State, e: Event, id: DatasetId)
    requires Enabled(s, e)
  {
    !e.Call? && !e.Configure? && Subject(s, e) == id
  }

  function WorkerSteps(states: seq<State>, events: seq<Event>, i: nat, j: nat, id: DatasetId): nat
    requires i <= j <= |events| < |states|
    requires forall k | i <= k < j :: Enabled(states[k], events[k])
  {
    if i == j then 0
    else WorkerSteps(states, events, i, j - 1, id) + if WorkerStep(states[j - 1], events[j - 1], id) then 1 else 0
  }

  lemma LeftOfWorker(s: State, id: DatasetId, w: nat)
    requires DatasetInv(s, id) && s.Serves(w, id)
    ensures id in s.pending && Left(s, id) == StepsLeft(s.pending[id], s.workers[w].pc)
  {
  }

  lemma OwnStepUsesUp(s: State, e: Event, id: DatasetId)
    requires Inv(s) && Enabled(s, e) && WorkerStep(s, e, id)
    ensures Left(Next(s, e), id) < Left(s, id)
  {
    var s' := Next(s, e);
    StepKeepsInv(s, e);
    assert s.Serves(e.w, id) && DatasetInv(s, id) && DatasetInv(s', id);
    LeftOfWorker(s, id, e.w);
    if e.w in s'.workers {
      LeftOfWorker(s', id, e.w);
    } else {
      assert forall w | s'.Serves(w, id) :: s.Serves(w, id);
    }
  }

  lemma OtherStepsUseNothing(s: State, e: Event, id: DatasetId)
    requires Inv(s) && Enabled(s, e) && !WorkerStep(s, e, id) && !(e.Call? && e.id == id)
    ensures Left(Next(s, e), id) <= Left(s, id)
  {
    var s' := Next(s, e);
    assert DatasetInv(s, id);
    assert forall w :: s.Serves(w, id) <==> s'.Serves(w, id);
    if w :| s'.Serves(w, id) {
      OtherStepsLeaveIt(s, e, id);
      LeftOfWorker(s, id, w);
      LeftOfWorker(s', id, w);
    }
  }

  lemma OtherStepsLeaveIt(s: State, e: Event, id: DatasetId)
    requires Inv(s) && Enabled(s, e) && !WorkerStep(s, e, id) && !(e.Call? && e.id == id)
    ensures DatasetInv(Next(s, e), id)
    ensures id in Next(s, e).pending <==> id in s.pending
    ensures id in s.pending ==> Next(s, e).pending[id] == s.pending[id]
    ensures forall w | s.Serves(w, id) :: w in Next(s, e).workers && Next(s, e).workers[w] == s.workers[w]
  {
    StepKeepsInv(s, e);
    assert DatasetInv(Next(s, e), id);
  }

  lemma StepUsesUp(s: State, e: Event, id: DatasetId)
    requires Inv(s) && Enabled(s, e) && !(e.Call? && e.id == id)
    ensures Left(Next(s, e), id) + (if WorkerStep(s, e, id) then 1 else 0) <= Left(s, id)
  {
    if WorkerStep(s, e, id) {
      OwnStepUsesUp(s, e, id);
    } else {
      OtherStepsUseNothing(s, e, id);
    }
  }

  /** After the last call for a dataset its worker takes a bounded number of steps, at
      most six. A worker that has taken them is gone. */
  lemma {:induction false} WorkerDrains(states: seq<State>, events: seq<Event>, i: nat, j: nat, id: DatasetId)
    requires IsRun(states, events) && i <= j <= |events|
    requires forall k | i <= k < j :: !(events[k].Call? && events[k].id == id)
    ensures WorkerSteps(states, events, i, j, id) + Left(states[j], id) <= Left(states[i], id) <= 6
  {
    if i < j {
      WorkerDrains(states, events, i, j - 1, id);
      InvHolds(states, events, j - 1);
      StepUsesUp(states[j - 1], events[j - 1], id);
    }
  }

  /** A live worker can always take its next step. */
  lemma WorkersNeverBlock(s: State, w: nat) returns (e: Event)
    requires w in s.workers
    ensures Enabled(s, e) && WorkerStep(s, e, s.workers[w].id) && e.w == w && !e.Panic? && !e.SpawnFails?
  {
    match s.workers[w].pc {
      case Spawning => e := Spawn(w);
      case Waiting =>
        var id := s.workers[w].id;
        e := QuietOver(w, if id in s.pending then s.pending[id].deadline else 0);
      case Ready => e := Start(w);
      case Working => e := Execute(w);
      case Finishing => e := Finish(w);
    }
  }

  /** The worker of `id` has nothing left to do but remove the entry. */
  ghost predicate AtItsEnd(s: State, id: DatasetId) {
    id in s.pending && !s.pending[id].again && exists w :: s.Serves(w, id) && s.workers[w].pc.Finishing?
  }

  /** From any reachable state, the steps of a dataset's worker alone lead, six at most,
      to its entry being gone, with every call made so far covered by a run, and by the
      reasoner exactly if the dataset is configured for it, unless that was decided. */
  lemma {:induction false} WorkerFinishes(s: State, id: DatasetId) returns (states: seq<State>, events: seq<Event>)
    requires Inv(s) && id in s.pending && id !in s.lost
    ensures |states| == |events| + 1 && states[0] == s && 0 < |events| <= Left(s, id) <= 6
    ensures forall i | 0 <= i < |events| ::
              Enabled(states[i], events[i]) && states[i + 1] == Next(states[i], events[i])
                  && WorkerStep(states[i], events[i], id)
    ensures var end := states[|events|];
            && id !in end.pending && end.Of(id).covered == end.Of(id).calls == s.Of(id).calls
            && (if AtItsEnd(s, id) then end.Of(id).ran == s.Of(id).ran && end.Of(id).ranAfter == s.Of(id).ranAfter
                else if id in s.dl then end.Of(id).ran && end.Of(id).ranAfter == end.Of(id).calls
                else !end.Of(id).ran)
    decreases Left(s, id)
  {
    assert DatasetInv(s, id);
    var w :| s.Serves(w, id);
    LeftOfWorker(s, id, w);
    var e := WorkersNeverBlock(s, w);
    var s' := Next(s, e);
    StepKeepsInv(s, e);
    OwnStepUsesUp(s, e, id);
    assert DatasetInv(s', id);
    if id in s'.pending {
      var rest, more := WorkerFinishes(s', id);
      states, events := [s] + rest, [e] + more;
    } else {
      states, events := [s, s'], [e];
    }
  }

  lemma LostStays(s: State, e: Event, id: DatasetId)
    requires DatasetInv(s, id) && Enabled(s, e) && id in s.lost
    ensures id in Next(s, e).lost && id in Next(s, e).pending
    ensures Next(s, e).Of(id).covered == s.Of(id).covered && Next(s, e).Of(id).ranAfter == s.Of(id).ranAfter
  {
    if !e.Call? && !e.Configure? {
      assert s.Serves(e.w, Subject(s, e));
    }
  }

  /** A dataset that lost its worker is stranded: later calls find its entry and spawn no
      worker, so no run ever starts for it again, however often one is scheduled. */
  lemma {:induction false} LostDatasetsAreStranded(states: seq<State>, events: seq<Event>, i: nat, j: nat,
                                                   id: DatasetId)
    requires IsRun(states, events) && i <= j < |states| && id in states[i].lost
    ensures id in states[j].lost && id in states[j].pending
    ensures states[j].Of(id).covered == states[i].Of(id).covered
            && states[j].Of(id).ranAfter == states[i].Of(id).ranAfter
  {
    if i < j {
      LostDatasetsAreStranded(states, events, i, j - 1, id);
      InvHolds(states, events, j - 1);
      assert DatasetInv(states[j - 1], id);
      LostStays(states[j - 1], events[j - 1], id);
    } else {
      InvHolds(states, events, i);
      assert DatasetInv(states[i], id);
    }
  }
}
