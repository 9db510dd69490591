# Open Triple Store: verified models

Dafny models of the stateful parts of the triple store's server and of two of its
data-preparation scripts, with proofs about whole runs. `dafny verify dfyconfig.toml`
checks everything.

**Keeping entailment graphs in step** (`src/entailment.rs`, with the rule loop of
`src/swrl/engine.rs`). A rule is a monotone operator from what a reasoner sees to what it
derives, over a finite universe of triples (`FixedPoint.dfy`). `JointRun.dfy` is the
alternation of SWRL rules and an entailment regime, loop for loop, failing rules included,
against the least set closed under both. `Maintenance.dfy` is a state machine over writes,
skips, extensions, rebuilds, background runs and failures of any number of datasets, whose
rules are read from the graphs being written; `MaintenanceLaws.dfy` says what its history stands
for in terms of events and graphs, `Lingering.dfy` has runs of it that end with too much or too
little. `Maintainer.dfy` has the run functions and the write hook as methods of
one object, every one proved to be a step, or a chain of steps, of that machine.
`BackgroundRuns.dfy` is the shared map of pending `owl2-dl` runs, its critical sections as
methods, a worker written with them, and the protocol of writers and workers around them, at
every interleaving.

**Subject trees** (`src/kind_detector.rs`). `SubjectTrees.dfy` is the per-quad role classifier
with its memoised chase of owners, proved against trees defined by ownership chains that meet.
`RoleLaws.dfy` says of each role, in terms of the types and predicates in a tree, when it is
the verdict. `TreeSplitting.dfy` says when splitting by role is safe and that order does not
matter. `PlainChase.dfy` compares the chase without its memo. `KindDetector.dfy` is the
file-level verdict, `EvidenceLaws.dfy` what it counts and how the verdict follows.

**Statement provenance** (`src/statement_provenance.rs`). `StatementProvenance.dfy` has the
annotations of one change row and shows that all annotations together determine the data;
`ProvenanceValues.dfy` says property by property what a row's annotations are.
`ProvenanceConsumer.dfy` is the log consumer as a machine with crashes and failed writes
between any two steps; `ProvenanceTick.dfy` is `tick` as a method whose effects are a chain of
its steps; `ProvenanceMeaning.dfy` puts the two together.

**Rule sets** (`src/dataset_rules.rs`). `RuleSets.dfy` has the traversal that finds a rule set
in a shared graph, and replacing and removing sets; `RuleMembers.dfy` has the naming of sets
and rules on which it rests.

**Two scripts.** `Unescape.dfy`, `UnescapeGrammar.dfy`: a chain of whole-string replacements
against a one-pass decoder, and against one for the whole grammar
(`scripts/build_lov_catalog.py`). `Reindex.dfy`, `ReindexLaws.dfy`: merging the vertices of
many features without moving a geometry (`scripts/build_3dbag_excerpt.py`).

What fails in the model may be any of the failures the code handles: lookups, clears, single
rules, whole passes, writes, time running out. They are parameters of the methods, or chosen
freely.

## Where the code and its documentation differ

- A comment promises that consequences of deleted data never linger. They can, although every
  later run succeeds, in three ways, each with a run that shows it:
  - the rebuild after a removal fails before it clears the graph, and the next additive write
    extends the stale graph (`ConsequencesLingerAfterEarlyFailure`);
  - an additive write gives a stored rule a body: the graph is extended, and what the rule
    concluded without it stays (`ConsequencesLingerAfterAdditiveWrite`);
  - the last rule of a dataset without a regime is removed: the hook considers only datasets
    that store rules now, and no longer finds it (`ConsequencesLingerWithoutRules`).

  `NothingLingers` and `RunsLeaveExactlyTheConsequences` hold for every run without such a step
  (`LeavesStale`), and `RunIsExactExactlyWhen` is the exact condition for one run.
- A rule that fails is logged and the iteration goes on; a pass in which it fails every time
  can converge, and the joint run reports convergence and no error on a graph that is not
  closed (`FailedRuleConverges`). It is the least joint fixed point exactly when the regime was
  settled and the rules that failed have nothing to add (`RunRulesJointly`).
- A joint run that is not told to run the regime first, although its caller has not run it,
  reports convergence if no axiom is new and the rules derive nothing
  (`UnsettledRegimeConverges`). That it has been run is left to the caller; `RegimeSettled` is
  what is needed, on the graph at entry.
- A run is recorded as in sync even when its stored rules stopped short or failed, so a later
  skip may rest on an incomplete graph (`SkipsRestOnIncompleteRuns`). A skip is as exact as the
  run it rests on (`SkipIsExactExactlyWhen`).
- A background worker that panics leaves its entry behind, and no run starts for that dataset
  again (`LostDatasetsAreStranded`).
- Role splitting keeps a blank node whole when it is the object of one subject at most. A
  blank node with two owners, or one only mentioned in a triple term, can be cut apart
  (`SplitIsSafeExactlyWhenCoherent`).
- Statements with a blank node inside a triple term are annotated: only the subject and the
  object itself are looked at (`AnnotatedExactlyWhen`, `BlankInTripleTermIsAnnotated`).
- `unescape_literal` leaves `\b`, `\f` and `\'` as they are, and turns NUL characters and
  escapes for code point 0 into backslashes (`ChainDecodesGrammarExactlyWhen`,
  `UnknownEscapesAreLeft`).
- With one id in two features vertices of the first object can stay in the document, unused
  (`RepeatedIdsLeaveDeadVertices`). None does exactly when the kept objects of each feature ask
  for all that its other objects ask for (`NothingLost`, `BuildExcerpt`).

## Model

| member | source | states |
|---|---|---|
| FixedPoint.ClosureIsLeast | src/entailment.rs:609-612 | the graph a fixed point stands for is contained in every set that holds the base and is closed under the rules |
| FixedPoint.ClosureHolds | src/entailment.rs:609-612 | that graph holds the base, is closed, and stays in the universe |
| FixedPoint.ExtendingEqualsRebuilding | src/entailment.rs:613-616 | starting from any consequences already drawn reaches the same graph as starting from the base |
| FixedPoint.ClosureMonotone | src/entailment.rs:613-616 | more sources, a larger base or rules that derive at least as much never lose a consequence |
| JointRun.Iteration | src/swrl/engine.rs:645-668 | every rule in turn; one that fails is noted and the rest go on; if nothing was added, no rule that ran has anything to add |
| JointRun.RunRules | src/swrl/engine.rs:593-695 | a pass stays within every set closed under the rules and reports what it added and which rules failed; converged, the graph is closed under the rules that did not fail in the last iteration; unless a count fails or time runs out it converges, failing rules or not, given one iteration more than there are triples to add |
| JointRun.RulesPass | src/swrl/engine.rs:593-695 | a converged pass in which no rule fails makes exactly the closure of the target |
| JointRun.Turn | src/entailment.rs:455-497 | one round: when a run goes on, both engines added something; when it converges, no rule but those that failed has anything to add; the passes it counts are one of the rules and, if a regime ran, one of the regime, each with what it added |
| JointRun.Alternate | src/entailment.rs:454-504 | the loop: at most 32 rounds, `converged` exactly without `error`, every added triple accounted for; unhindered it converges or gives up, and it gives up only after at least 64 triples; each count is the sum of what that engine's passes added, one pass of the rules for each round |
| JointRun.LegsMakeRounds | src/entailment.rs:454-504 | where no rule fails, the counted passes two by two are the iterates that the termination argument is about |
| JointRun.LastLegMakesARound | src/entailment.rs:478-483 | and so is a last pass of the rules alone that leaves nothing to the regime |
| JointRun.Begin | src/entailment.rs:439-453 | new axioms are installed, and the regime runs before the first round exactly if they are or if asked to; a failure of either ends the run |
| JointRun.RunRulesJointly | src/entailment.rs:397-504 | any run stays within the least joint fixed point; a converged one equals it exactly when the regime was settled on entry (it ran first or for new axioms, the rules had something to add, or it had nothing to add) and the failed rules have nothing to add; an unhindered one with fewer than 64 consequences to draw converges; the counts are, engine by engine, the sums of what its passes added, each pass within the closure under its own engine; no regime, or rules closed at entry to the first round, means a count of 0; the target grew by exactly the new axioms plus both counts |
| JointRun.FailedRuleConverges | src/entailment.rs:455-491 | a run that converges without error on a graph that is not closed, its rule having failed |
| JointRun.UnsettledRegimeConverges | src/entailment.rs:397-410 | another, its caller not having run the regime |
| JointRun.GrowthStops | src/entailment.rs:454-504 | an operator that only grows its argument in a finite bound stands still after at most as many steps as elements were missing |
| JointRun.AlternationTerminates | src/entailment.rs:449-504 | without the cap, alternating ends in the least joint fixed point after at most one round per underived consequence |
| Maintenance.RunReachesConsequences | src/entailment.rs:613-646 | a run from consequences of the sources and rules as they are stays within them, and without error ends with all of them exactly when the failed rules have nothing to add |
| Maintenance.RunIsExactExactlyWhen | src/entailment.rs:617-750 | a run without error ends with exactly the consequences of what is stored now if and only if it started from consequences and the failed rules have nothing to add |
| Maintenance.RunKeepsInv | src/entailment.rs:617-750 | a run of one dataset, by the hook or in the background, keeps the invariant of all |
| Maintenance.StepKeepsInv | src/entailment.rs:938-996 | every write (to rules too), hook, miss, skip, schedule, extension, rebuild and failure keeps the invariant: a graph that is vouched for holds only consequences of sources and rules as they are |
| Maintenance.InvHolds | src/entailment.rs:938-996 | the invariant at every state of every run |
| Maintenance.RecordedGraphsAreVouchedFor | src/entailment.rs:246-261 | only four kinds of step leave a recorded dataset with a graph nothing vouches for: a failure before the clear or a failed lookup after something was removed, an extension after an additive write under which the rules did not only grow, a write that leaves no rule and no regime |
| Maintenance.NothingLingers | src/entailment.rs:10-12 | without such steps a recorded graph never holds anything but consequences of the sources and rules as they are, unless its rebuild is still to come |
| Maintenance.RunsLeaveExactlyTheConsequences | src/entailment.rs:938-996 | over every run without such steps, an extension or a rebuild that ends without error leaves exactly the consequences, if and only if the failed rules have nothing to add |
| Maintenance.SkipIsExactExactlyWhen | src/entailment.rs:958-962 | a skip finds the graph, the sources and the rules as some run left them that finished before; if that run met no error, the skip finds exactly the consequences if and only if the run had started from consequences and its failed rules have nothing to add |
| Maintenance.SkipsRestOnReliableRuns | src/entailment.rs:958-962 | so it does when that run met no failed rule and extended no stale graph |
| Maintenance.RebuildForgets | src/entailment.rs:636-646 | a rebuild that gets past the clear leaves no consequence of removed data or rules, whatever came before, even if it then fails |
| Maintenance.StaleTriplesStay | src/entailment.rs:966-976 | what an early failure left stays through any number of extensions until a rebuild gets to the clear |
| MaintenanceLaws.ConsequencesAreLeast | src/entailment.rs:609-676 | what a graph should hold is the least set of triples with the stored rules' axioms and all that these rules and the regime derive from the sources and the set itself |
| MaintenanceLaws.RulesOnlyGrowExactlyWhen | src/entailment.rs:893-900 | an additive write is harmless to the rules exactly when whatever could be derived still can and no axiom goes |
| MaintenanceLaws.ShrunkExactlyWhen | src/entailment.rs:938-996 | over every run a dataset may have lost something exactly when some write to a graph it owns may have taken it, and no run and no failed lookup has dealt with that since |
| MaintenanceLaws.StaleStep | src/entailment.rs:617-646 | nothing vouches for a graph exactly from a step that leaves it stale, or from the start, until a rebuild clears it |
| Lingering.ConsequencesLingerAfterEarlyFailure | src/entailment.rs:624-646 | a run in which a failure before the clear lets a consequence of removed data outlive a later run that succeeds |
| Lingering.ConsequencesLingerAfterAdditiveWrite | src/entailment.rs:893-900 | a run without any failure in which an additive write to a rule does the same |
| Lingering.ConsequencesLingerWithoutRules | src/entailment.rs:902-936 | and one in which the removal of the only rule does |
| Lingering.SkipsRestOnIncompleteRuns | src/entailment.rs:594-604 | a run whose rules stop short or fail is recorded, and the hook skips the incomplete graph |
| Maintainer.Server.RunForDatasetWith | src/entailment.rs:617-750 | with a regime: the outcome, the graph, the record and the generation are those of one run step of the machine, and nothing changed exactly when the lookup or the first clear failed; rules that are refused or cannot be read are reported as an error, no rules as none |
| Maintainer.Server.RunRulesForDataset | src/entailment.rs:578-604 | without a regime: likewise, recorded even when the rules stop short or fail |
| Maintainer.Server.Materialise | src/entailment.rs:646-676 | regime, then stored rules, on top of the base: within its closure, and without error equal to it exactly when the failed rules have nothing to add; unhindered, with rules that can be read and fewer than 64 consequences to draw, it ends without error |
| Maintainer.Server.AfterWriteKind | src/entailment.rs:938-996 | exactly the datasets that own a written graph, have a regime or store a rule now, and could be looked up are scheduled, skipped or run, as what was on record decides, each by an event of the machine; a run without error on a sound graph leaves exactly the consequences unless a failed rule has something to add |
| Maintainer.Server.WriteAndMaintain | src/entailment.rs:886-996 | a write and its hook: exactly the datasets it concerns are dealt with; after a run without error each dataset holds exactly the consequences of what is stored now, unless a failed rule has something to add; for an extension, if the graph was not stale and the rules only grew |
| Maintainer.Server.Visit | src/entailment.rs:951-995 | at one dataset the hook schedules exactly if its regime is `owl2-dl`, skips exactly when the record is of this generation, else extends exactly when the write was additive and a run is on record |
| Maintainer.Server.WriteData | src/entailment.rs:893-900 | a write replaces the graphs it names and makes the hook due for the datasets owning one of them |
| BackgroundRuns.Registry.Schedule | src/entailment.rs:784-805 | a call adds an entry (and asks for a worker) exactly when there is none; else it pushes the deadline back and asks a running worker to go round again |
| BackgroundRuns.Registry.Finish | src/entailment.rs:848-859 | a finished worker goes round again exactly when asked, else removes the entry |
| BackgroundRuns.StepKeepsInv | src/entailment.rs:784-861 | every step of writers and workers keeps each dataset's invariant |
| BackgroundRuns.NoWriteIsLost | src/entailment.rs:779-861 | when a worker removes its entry, the last run it started began after every call so far, and the reasoner too if it ran |
| BackgroundRuns.LastExecute | src/entailment.rs:834-847 | a worker past a run read the configuration once since it started it; the reasoner ran if and only if the dataset was configured for it then; a call since means another run |
| BackgroundRuns.WritesAreReasonedOver | src/entailment.rs:779-861 | when a worker removes its entry and the dataset was configured from some call on, the reasoner ran after every call |
| BackgroundRuns.UnconfiguredDatasetsAreNotReasonedOver | src/entailment.rs:835-847 | it did not run if the dataset was configured at no time the worker looked since its last start |
| BackgroundRuns.ConfiguredAsLast | src/entailment.rs:835-836 | a dataset is configured as it was last configured |
| BackgroundRuns.DeadlineOfLastCall | src/entailment.rs:788-821 | a worker waits until the deadline that the latest call set |
| BackgroundRuns.EntryHasOneWorker | src/entailment.rs:784-861 | a dataset has an entry exactly when it has a worker, one at most, if and only if it has not lost one |
| BackgroundRuns.CallsCoalesce | src/entailment.rs:787-831 | however many calls arrive, at most one run starts after the last, and exactly one once the entry is gone |
| BackgroundRuns.WorkerDrains | src/entailment.rs:807-861 | after the last call the worker takes at most six more steps |
| BackgroundRuns.WorkersNeverBlock | src/entailment.rs:807-861 | a live worker can always take its next step |
| BackgroundRuns.WorkerFinishes | src/entailment.rs:807-861 | from any reachable state the steps of the worker alone, six at most, lead to its entry being gone and every call covered, by the reasoner exactly if the dataset is configured for it, unless the worker was past that |
| BackgroundRuns.Work | src/entailment.rs:807-861 | a worker in the program's form, writers scheduling at any moment: its entry ends up gone, the last run began after every call, no more runs than calls plus one, and the reasoner ran in exactly those at which the dataset was configured |
| BackgroundRuns.LostDatasetsAreStranded | src/entailment.rs:787-797 | once a worker is lost no run starts for its dataset any more, whatever is scheduled |
| SubjectTrees.Resolve | src/kind_detector.rs:689-721 | the chase keeps the memo right: every remembered blank node has the one root of its tree, a member of that tree, its named node if there is one |
| SubjectTrees.RootIsCanonical | src/kind_detector.rs:699-716 | however the chase ends, its root is the root of the whole tree, from every node it passed |
| SubjectTrees.FindRoots | src/kind_detector.rs:723-730 | for every order of resolution, two quads get one root exactly when their subjects' ownership chains meet |
| SubjectTrees.TallyTrees | src/kind_detector.rs:732-738 | each root's tally counts the signals of all the quads of its tree and no others |
| SubjectTrees.ClassifyQuadRoles | src/kind_detector.rs:676-758 | each quad's role is the verdict over its subject's whole tree |
| SubjectTrees.FirstQuadOwns | src/kind_detector.rs:676-688 | a blank node belongs to the subject of the first quad it is the object of |
| RoleLaws.SignalsSay | src/kind_detector.rs:515-555 | each signal is given by exactly the listed types and predicates |
| RoleLaws.ShapesLaw | src/kind_detector.rs:600-602 | a tree is a shape exactly when one quad has a SHACL shape type or a SHACL predicate |
| RoleLaws.EntailmentLaw | src/kind_detector.rs:603-605 | else it is rules exactly when one quad has the SWRL rule type or a SPIN predicate |
| RoleLaws.SchemaTypeLaw | src/kind_detector.rs:606-608 | else a type of OWL or RDFS classes and properties makes it a model |
| RoleLaws.CatalogLaw | src/kind_detector.rs:611-613 | else it is a catalogue exactly when a DCAT or VoID type occurs |
| RoleLaws.ProvenanceTypeLaw | src/kind_detector.rs:614-616 | else a PROV type makes it provenance |
| RoleLaws.SkosTypeLaw | src/kind_detector.rs:617-622 | else a concept or scheme makes it vocabulary, and a collection without one domain values |
| RoleLaws.InstanceTypeLaw | src/kind_detector.rs:623-625 | else any type makes it instances |
| RoleLaws.LinksetLaw | src/kind_detector.rs:626-633 | it is a linkset exactly when it has no type and as many alignment predicates, and at least one, as model, vocabulary and provenance ones |
| RoleLaws.UntypedLaw | src/kind_detector.rs:634-646 | any other tree without a type goes by its predicates: provenance, then membership, then vocabulary against model, then instances |
| SubjectTrees.TallyOfOneTree | src/kind_detector.rs:656-675 | all nodes of a tree see one tally, so one verdict |
| TreeSplitting.SingleOwnersAreNeverSevered | src/kind_detector.rs:656-675 | with one owner for each blank node no split by role cuts a blank-node structure: list spines, nesting of any depth, ownership cycles |
| TreeSplitting.SplitIsSafeExactlyWhenCoherent | src/kind_detector.rs:676-758 | a graph's shape is safe to split under every choice of predicates if and only if any two quads mentioning a blank node have subjects in one tree |
| TreeSplitting.IncoherentGraphsCanBeSevered | src/kind_detector.rs:676-758 | for any other shape, predicates that make the split cut a blank node |
| TreeSplitting.RolesFollowPermutations | src/kind_detector.rs:676-758 | with one owner for each blank node, permuting the quads permutes the roles |
| PlainChase.PlainRootsTellTreesExactlyWhen | src/kind_detector.rs:689-721 | without the memo, roots would tell trees apart if and only if no node off a cycle is less than all of the cycle it leads into |
| PlainChase.UndercuttingTailIsCutOff | src/kind_detector.rs:709-711 | a lesser tail would get another root than its cycle: what the memo prevents |
| KindDetector.Detect | src/kind_detector.rs:220-267 | the scan tallies what the quads' evidence adds up to and classifies it |
| KindDetector.DetectionIsScaleInvariant | src/kind_detector.rs:221-364 | repeating the input any number of times gives the same verdict |
| KindDetector.UnmixedMeansOneKind | src/kind_detector.rs:269-364 | a verdict is unmixed exactly when all evidence is for at most one kind, an ontology header passing beside a model, a vocabulary or shapes only |
| KindDetector.UnmixedVerdictIsTheKind | src/kind_detector.rs:269-364 | an unmixed verdict names that kind |
| EvidenceLaws.EvidenceIsCounted | src/kind_detector.rs:224-267 | each count is the number of quads with the listed types or predicates |
| EvidenceLaws.MoreOfTheSameKeepsVerdict | src/kind_detector.rs:269-364 | more evidence for the kind a verdict names never changes what it names |
| EvidenceLaws.InstancesExactlyWhen | src/kind_detector.rs:269-364 | a file is of instances exactly when these outnumber the schema three to one |
| EvidenceLaws.EntailmentExactlyWhen | src/kind_detector.rs:269-364 | and of rules exactly when there are any and nothing outnumbers them |
| EvidenceLaws.ShapesExactlyWhen | src/kind_detector.rs:269-364 | of shapes exactly when there is no class, properties and instances are outnumbered three to one, and rules are fewer than shapes or headers |
| EvidenceLaws.OtherVerdicts | src/kind_detector.rs:269-364 | and when any other file is undecided, vocabulary or a model |
| EvidenceLaws.VerdictIsBacked | src/kind_detector.rs:269-364 | a verdict names only a kind there is evidence for |
| StatementProvenance.Annotate | src/statement_provenance.rs:93-188 | a row's annotations are appended in order: reifier, graph, change, op, seq, commit, regime, actor and time per statement, gaps for what is skipped or was not carried; blank statements are counted |
| StatementProvenance.MinimalIsFullWithoutWhoAndWhen | src/statement_provenance.rs:163-176 | the minimal profile writes exactly what the full one writes, but for who made a change and when |
| StatementProvenance.GapsAreRecorded | src/statement_provenance.rs:106-187 | a row has a gap on record exactly when the log could not carry it or a changed statement holds a blank node |
| StatementProvenance.AnnotatedExactlyWhen | src/statement_provenance.rs:83-136 | a changed statement is annotated exactly when neither its subject nor its object is a blank node |
| ProvenanceValues.RowSaysAll | src/statement_provenance.rs:93-188 | an annotation is written for a row exactly when it truly says one of eleven things of it: each property's subject and value, per changed statement or gap, and the number of statements skipped |
| ProvenanceValues.RegimeStandsBeforeTheColon | src/statement_provenance.rs:116-121 | the regime named is what stands between the entailment prefix and the next colon |
| ProvenanceValues.OtherGraphsHaveNoRegime | src/statement_provenance.rs:116-121 | no other graph names one |
| ProvenanceValues.LastDatasetOwns | src/statement_provenance.rs:212-222 | the last opted-in dataset a graph is registered with owns it, a provenance graph nobody |
| StatementProvenance.BlankInTripleTermIsAnnotated | src/statement_provenance.rs:87-89 | a statement with a blank node in a triple term that is annotated |
| StatementProvenance.OwnersSkipProvenanceGraphs | src/statement_provenance.rs:212-222 | no provenance graph is anyone's data, so the consumer's own rows are never annotated |
| StatementProvenance.AnnotationsSayWhatHappened | src/statement_provenance.rs:123-159 | an event annotation is there exactly when a row made that change to that statement |
| StatementProvenance.DataIsLastAdded | src/statement_provenance.rs:123-159 | over net rows, a statement is in the data exactly when its last change was an addition |
| StatementProvenance.AnnotationsDetermineData | src/statement_provenance.rs:70-159 | a statement of a graph that opted in is in the data exactly when the annotations' event with the highest number says "add", on logs with other rows too, the consumer's own among them |
| ProvenanceConsumer.RowsAfterIsAStretch | src/statement_provenance.rs:207-211 | a batch is the unbroken stretch of the log right above the cursor |
| ProvenanceConsumer.BatchIsPending | src/statement_provenance.rs:223-232 | a tick sets out to write exactly the annotations of its batch |
| ProvenanceConsumer.StepKeepsInv | src/statement_provenance.rs:192-256 | data writes, applied or failed annotation writes, cursor moves and crashes keep the invariant |
| ProvenanceConsumer.NothingMissedNothingInvented | src/statement_provenance.rs:192-256 | over every run the graph holds every annotation of the rows the cursor has passed and nothing but annotations of rows in the log |
| ProvenanceConsumer.NothingIsRetroactive | src/statement_provenance.rs:198-206 | over every run each annotation is of a row above the head of the log as the first tick found it, and every such row the cursor has passed is annotated |
| ProvenanceConsumer.TickReadsABatch | src/statement_provenance.rs:207-211 | a tick reads 2000 rows, or all there are if fewer |
| ProvenanceConsumer.CaughtUpIsOneShot | src/statement_provenance.rs:192-256 | with the cursor at the head, the graph is the one-shot annotation of the log |
| ProvenanceMeaning.CaughtUpGraphDeterminesData | src/statement_provenance.rs:70-256 | over every run, with the cursor at the head, the provenance graph says of each statement whether it is in the data |
| ProvenanceMeaning.OwnRowsAreAllowed | src/statement_provenance.rs:212-222 | a row of the consumer's own keeps a log among those spoken of |
| ProvenanceConsumer.QuietTickKeepsInv | src/statement_provenance.rs:192-256 | a whole tick keeps the invariant |
| ProvenanceConsumer.QuietTickReadsOn | src/statement_provenance.rs:207-254 | below the head a tick leaves less data unread, or as much data, fewer rows, and writes nothing |
| ProvenanceConsumer.TickingQuiesces | src/statement_provenance.rs:192-256 | once data writes stop, ticking reaches the head though its own writes append rows, then writes nothing more |
| ProvenanceTick.Consumer.Tick | src/statement_provenance.rs:192-256 | a tick is a chain of steps of the machine; the first only sets the cursor to the head; a whole one annotates its batch and moves the cursor past it, a failed one leaves the cursor; the count is what was new, the write that failed left out |
| ProvenanceTick.Consumer.WriteBatch | src/statement_provenance.rs:233-253 | dataset by dataset, until all of the batch is written or one write fails |
| ProvenanceTick.Collect | src/statement_provenance.rs:223-232 | what is collected for a dataset is what the batch's rows of its graphs ask for |
| RuleSets.SetQuads | src/dataset_rules.rs:275-306 | on every graph, cyclic ones too, the traversal ends with exactly the quads whose subject is reachable from the set node through blank nodes and IRIs under the set's, each once |
| RuleSets.QuadsAreTheLeastWhole | src/dataset_rules.rs:275-306 | these are the least part of the graph with every statement about the set node, about a blank node met and about an IRI met that begins with the set's |
| RuleSets.ManagedGraph.WriteSet | src/dataset_rules.rs:410-454 | removing the old quads and adding the new ones in one list leaves the new ones, even where they overlap |
| RuleSets.ManagedGraph.RemoveSet | src/dataset_rules.rs:456-473 | the set's quads are gone; false exactly when there were none |
| RuleSets.ReadingGivesTheSet | src/dataset_rules.rs:275-306 | in a graph of well-formed sets the traversal finds one set, all of it and nothing else |
| RuleSets.ReadingAnAbsentSet | src/dataset_rules.rs:275-306 | and nothing for a set that is not there |
| RuleSets.WritingReplacesOneSet | src/dataset_rules.rs:410-454 | writing leaves exactly the new triples for the set, beside the other sets |
| RuleSets.WritingLeavesTheOthers | src/dataset_rules.rs:410-454 | every other set reads as before |
| RuleSets.RemovingDropsOneSet | src/dataset_rules.rs:456-473 | removing leaves the union of the other sets, and finds a set exactly when it was there |
| RuleSets.RemovingLeavesTheOthers | src/dataset_rules.rs:456-473 | every other set reads as before |
| RuleSets.RemovingUndoesWriting | src/dataset_rules.rs:410-473 | writing a new set and removing it restores the graph |
| RuleSets.LongerIrisLeak | src/dataset_rules.rs:294-300 | with IRIs of different lengths one set could be read and removed with another |
| RuleMembers.SetNodesHaveOneLength | src/dataset_rules.rs:491-496 | set IRIs have one length, so none is under another |
| RuleMembers.SetNodeIs | src/dataset_rules.rs:491-496 | a text names the set of a UUID exactly when it writes that UUID, with or without hyphens, in braces or as a URN, in either case |
| RuleMembers.OnlyUuidsNameSets | src/dataset_rules.rs:491-496 | and no other text names a set |
| RuleMembers.ListedIdNamesTheSet | src/dataset_rules.rs:195-200 | the id a set is listed under names that set again |
| RuleMembers.KeyOfMember | src/dataset_rules.rs:208-214 | sorting by what follows the last colon sorts by rule number |
| RuleMembers.ListedInWrittenOrder | src/dataset_rules.rs:201-214 | in whatever order the store returns them, the members are listed in the order written |
| RuleMembers.BuiltSetsAreWellFormed | src/dataset_rules.rs:345-407 | a built set, whose rules are named under the set's IRI, is found whole by the traversal |
| Unescape.ChainDecodes | scripts/build_lov_catalog.py:175-185 | on every text the chain of replacements is the one-pass decoder, but for NUL characters, which come out as backslashes |
| Unescape.ChainEqualsOnePass | scripts/build_lov_catalog.py:175-185 | the two are equal exactly when there is no NUL character and no escape for code point 0 (or an escape names no code point and both fail) |
| Unescape.NumericEscapesDecode | scripts/build_lov_catalog.py:172-184 | a numeric escape is decoded to the code point its four or eight digits write, in either case, and fails beyond the last |
| Unescape.OthersStay | scripts/build_lov_catalog.py:172-184 | a backslash before anything else, too few digits included, stays |
| Unescape.NamedEscapesDecode | scripts/build_lov_catalog.py:177-183 | what the five named escapes stand for |
| Unescape.CharactersStay | scripts/build_lov_catalog.py:175-185 | every other character stands for itself |
| Unescape.DecodeUndoesEscape | scripts/build_lov_catalog.py:175-185 | the one-pass decoder undoes the escaper on every text |
| Unescape.UnescapeUndoesEscape | scripts/build_lov_catalog.py:175-185 | so does the chain, exactly on texts without a NUL character |
| UnescapeGrammar.DecodersDiffer | scripts/build_lov_catalog.py:175-185 | the decoders for the chain's escapes and for all of the grammar fail alike, and differ by one character for each of the three escapes the chain does not know |
| UnescapeGrammar.ChainDecodesGrammarExactlyWhen | scripts/build_lov_catalog.py:175-185 | the chain decodes the grammar exactly on texts with none of these, no NUL character and no escape for code point 0 (or where both fail) |
| UnescapeGrammar.UnknownEscapesInGrammar | scripts/build_lov_catalog.py:175-185 | what the grammar's three further escapes stand for |
| UnescapeGrammar.UnknownEscapesAreLeft | scripts/build_lov_catalog.py:175-185 | each of the three escapes it leaves as it is |
| Reindex.GrowthKeepsGeometry | scripts/build_3dbag_excerpt.py:121-129 | indices handed out earlier keep their meaning as the vertex list grows |
| Reindex.Writer.IndexOf | scripts/build_3dbag_excerpt.py:121-129 | the index points at the feature's vertex, its z replaced when asked; a vertex is appended only for an index and a z that the feature has none for yet |
| Reindex.Writer.Remap | scripts/build_3dbag_excerpt.py:98-101 | a re-indexed boundary has the same nesting and the same geometry; it uses exactly one vertex for each index used, the same one throughout the feature, and every vertex appended for it |
| Reindex.WriteObject | scripts/build_3dbag_excerpt.py:142-155 | the kept geometries of an object, in order, each with its geometry; only footprints are lifted, to the feature's first stated ground level |
| ReindexLaws.KeptExactlyWhen | scripts/build_3dbag_excerpt.py:91-95 | a building keeps its footprints and any other object its detailed solids, each as often as it is there, and nothing else is kept |
| ReindexLaws.KeptInOrder | scripts/build_3dbag_excerpt.py:142-144 | in their order |
| ReindexLaws.FirstStatedGround | scripts/build_3dbag_excerpt.py:135-141 | the ground level is the first that an object of the feature states |
| ReindexLaws.WrittenWhereItWas | scripts/build_3dbag_excerpt.py:98-150 | each index kept is written as the index of a vertex with the same x and y, and the same z unless a footprint is lifted to the ground |
| Reindex.SolidsAreNotLifted | scripts/build_3dbag_excerpt.py:146-150 | whatever the ground level, a solid keeps its own vertices |
| Reindex.BuildExcerpt | scripts/build_3dbag_excerpt.py:115-166 | every object met is written with its geometries; the document holds, under each id, the kept geometries of its last object unchanged; there is one vertex for each index and z that any object of a feature asks for; every vertex is referenced if and only if whatever an object met again under its id asks for, a kept object of its feature asks for too, so with distinct ids |
| Reindex.NothingLostMeansAllKept | scripts/build_3dbag_excerpt.py:117-166 | that condition on the features, which distinct ids meet, says that the kept objects ask for all that any object does |
| Reindex.RepeatedIdsLeaveDeadVertices | scripts/build_3dbag_excerpt.py:166-166 | an input with one id twice whose document has a vertex that nothing references |

## Left out

- The regime reasoners, the rule compiler, and the store: engines are monotone operators over a finite universe, the store a map of graphs. A failure inside a regime's pass ends the pass.
- Auxiliary axioms are a set whose missing members are added; the code checks per class node whether any definition of it is present.
- Writes are serialised with their hook: the generation is read without a lock, so concurrent writes are outside the claims, and every change to a reasoning source or to a rule graph is taken to go through the hook of a dataset that owns it.
- Regimes and ownership are fixed in `Maintenance`: changes of regime (and with them of the target graph) appear as rebuilds only. The graph a dataset would have without its regime is not modelled beyond the failure of its clear.
- SKOS premise loading and pruning, inconsistency reports, backends, identity policy and status columns.
- The debounce as a timing guarantee: a worker waits until the last deadline set, but nothing is claimed about how much later it goes on.
- A process end: a new process starts from `Init`, with no run on record.
- Quoted subjects: with the RDF terms of the source a subject is an IRI or a blank node, so the per-quad fallback of `classify_quad_roles` is never taken.
- The digest of a statement is taken to be injective: a reifier is its quad.
- Opted-in datasets and profiles are fixed and not empty, their graphs can be listed and registered, the log has one epoch and keeps its rows, and capture is on.
- The rows logged for the consumer's own writes: that they are rows of a provenance graph is all that is used of them.
- What `rule_to_rdf` writes: that every triple of a rule is reachable from the rule's node is an assumption of `BuiltSetsAreWellFormed`.
- That blank nodes of different sets differ is an assumption of `Managed`: the store and the writer make fresh ones.
- Registering the managed graph with the dataset, parsing and checking rules, and the fields of a listing besides its order.
- Attributes, parents, children, rounding, quantisation and counts of the excerpt; vertices have three integer coordinates, and an index out of range, on which the script stops, is excluded.
- HTTP, SQLite, authorisation, logging, files and network access, and every module not named above.
