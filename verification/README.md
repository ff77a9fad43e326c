# Loopstrap kernel: a verified model

Loopstrap is a deterministic workflow kernel. A run owns a tree of Cells; each Cell goes from an accepted contract
through frozen tests, a plan and an adversarial review to either an implementation or a set of child Cells and their
integration, then a second review, then closure. This project models that kernel in Dafny and proves what its parts
promise together. `dafny verify dfyconfig.toml` checks everything; nothing here is executed.

How the modules fit:

* `Workflow` gives the effect of each of the seventeen graph operations as a function from a graph to a graph and a
  possible refusal; `RunGraphObject.RunGraph` is the class that updates its fields in place, every method proved equal
  to the corresponding effect. `GraphInvariant`, `Ancestry`, `Closure`, `Promises` and `Endorsement` prove what every
  run over these effects keeps; `StandardWorkflow` is the workflow definition the acceptance tests load, `Loading` what
  a definition needs for closing to mean review, `Walkthrough` the runs that serve as witnesses.
* `System` adds the run status and the event log with its stable ids, idempotent appends and full-state checkpoints.
  `History` proves what the log and the memory of a system keep of each other, in every run however often it crashes
  and is opened again; `Recovery` what opening and replaying then find.
* `DriverSteps`, `DriverRun`, `Counting` and `Driver` are the recursive driver with its termination bound,
  `DriverRecovery` the driver over runs that crash inside its turns. `Redo` says what a log holds for redoing a call
  that a crash cut off, `DriverTracks` that every driver run leaves such a log, `DriverBlocks` exactly which runs no
  answer of any role can take further, `DriverEnds` that these stay so and exactly which crashes lead there, and
  `DriverWitness` leads a new run to both kinds.
* `Staleness` and `Evidence`: what revisions promise to authorizations and to acceptance.
* `Containment`, `Contracts` and `Ports` model the contract graph validator and what acceptance implies for someone who
  follows ports inward.
* `Ledger` is the hash-chained log as bytes, `LedgerSteps` processes sharing it under its lock with crashes between any
  two bytes; it is what justifies treating an append as one step everywhere else.
* `Dispatch` and `DispatchSteps` are reservations, harness runs and their usage; `Usage` is the charge ledger.
* `Promotion` is the candidate pointer and its workspaces; `PromotionSteps` any number of processes that dispatch,
  verify, review, promote, close, crash and open again over one pointer, each with a graph in memory that calls of
  `Workflow` lead to; `PromotionClosing`, `PromotionReplay`, `PromotionWitness` and `ClosingWitness` what that means
  for closed Cells, for replaying the events, and where it fails.

Assumptions made explicit: digests (SHA-256, the truncated job id, event ids) are injective, either as symbolic
constructors or as a hypothesis (`Ledger.Faithful`); JSON payloads are opaque values; amounts are exact. Results about
runs of Cells assume `Workflow.WellShaped`, a definition with one phase of each lifecycle kind joined by the standard
outcomes; `StandardWorkflow.StandardIsWellShaped` shows the standard definition is one. Driver results are for a system
without a bound contract graph and a provider that only answers; under a configured review role the driver, which
brings no review job, is refused and parks.

Where the code does something else than one might expect, the model follows the code and says exactly when:

* Loading a workflow definition does not exclude an accepted contract leading straight to `closed`
  (`StandardWorkflow.LoadableIsNotEnough`). Every closing is a reviewed one exactly if Cells do not begin closed and no
  outcome the operations use, other than an accepted post-review, leads to a closed phase (`Loading.GuardedExactly`,
  over all graphs that store their Cells under their own ids, reached by a run or not).
* A refused call can change the graph: an integration result offered in the children phase over closed children begins
  integration before it is refused. It is the only such call (`GraphInvariant.RefusalChangesNothing`, an equivalence
  over all seventeen operations; `Walkthrough.RefusedResultMovesTheRoot` is a run to one).
* An event that a crash cut off from its checkpoint stays in the log, and opening goes back behind it. Redoing its call
  is accepted exactly if its content is the same (`Recovery.RedoneIffSame`); refused, it has changed the memory.
* The driver makes two calls for a composite pre-review and two for a post-review, each with its own checkpoint. A run
  can be driven no further, whatever any role answers, exactly if a composite waits for children that were never
  recorded, or the post-review of the Cell the driver is at has its checkpoint while the Cell is not closed, or a review
  is due that no role can give: its phase has none, or a configured one, which wants a job the driver does not bring
  (`DriverBlocks.BlockedExactly`, for every driver history from a fresh root). It lasts (`DriverEnds.DeadEndLasts`).
  Missing roles aside, a crash inside a turn leads there exactly if the last checkpoint is the turn's and is that of the
  first half of a split or of a post-review, or follows a split review that clashed (`DriverEnds.CrashEndsExactly`); a
  turn that is not killed leads there exactly by such a clash (`TurnEndsExactly`).
  `DriverWitness.KilledBeforeClosing` and `OtherSeamsHappen` lead a new run to each.
* A post-review whose event a crash cut off from its checkpoint can be redone with the same evidence and no other
  (`DriverEnds.ReviewRedoneIffSame`).
* The status replayed from events and the recovered status agree exactly if the last status event is followed by its
  own checkpoint (`Recovery.ReplayAgreesWithRecovery`, for every run); a pause killed before its checkpoint makes them
  differ for good, whatever is recorded after it (`Recovery.LostPause`).
* A job whose process dies after its workspace was created and before its checkpoint was written can never be
  returned, although its key stays reserved (`DispatchSteps.RedispatchAfterCrash`, an equivalence;
  `LaunchedJobStrands` is a new run to such a job, its harness launched).
* A record whose bytes are complete except for the newline is cut off by quarantine like any partial record
  (`Ledger.CrashIsAtomic`).
* A Cell that was dispatched for closes only after a promotion, and a review is a dispatch too. So a decomposed Cell
  that its graph would close is closed exactly if no job was dispatched for it, be it only for its review
  (`PromotionClosing.CompositeClosesExactly`, in every run without backward calls); where the pre-review role is
  configured no decomposed Cell closes at all (`ReviewedCompositesStayOpen`).
  `ClosingWitness.ReviewedRootCannotClose` leads a new run to such a refusal.
* The snapshot replayed from events is the candidate pointer in serial runs (`PromotionReplay.SerialRunsReplay`), and
  after one undisturbed promotion exactly if the job was not promoted before or changes nothing (`PromotionAgrees`).
  It is not when two promotions overlap, when a promoter dies between its swap and its event, and when a job is
  promoted, undone and promoted again: `PromotionWitness` leads a new run to each.
* Charges depend on nothing but the set of reports exactly if no dispatch has two chargeable ones
  (`Usage.OrderIsIrrelevantIff`).

## Model

| member | source | states |
|---|---|---|
| `RunGraphObject.RunGraph.CreateRoot` | loopstrap_core/workflow.py:300-327 | The in-place call leaves exactly the graph and refusal of the creation effect: only the first Cell, only with nonempty distinct obligations. |
| `RunGraphObject.RunGraph.AcceptContract` | loopstrap_core/workflow.py:341-345 | The in-place call equals the effect on which all run invariants are proved; refusals included. |
| `RunGraphObject.RunGraph.FreezeTests` | loopstrap_core/workflow.py:347-382 | The in-place call equals the freezing effect: basis checked against the obligations before anything is stored. |
| `RunGraphObject.RunGraph.ReviseTests` | loopstrap_core/workflow.py:384-419 | The in-place call equals the revising effect, including the state left when the definition has no single plan phase. |
| `RunGraphObject.RunGraph.RecordPlan` | loopstrap_core/workflow.py:421-439 | The in-place call equals the planning effect; refusals leave the effect state. |
| `RunGraphObject.RunGraph.RecordPreReview` | loopstrap_core/workflow.py:441-465 | The in-place call equals the pre-review effect for both verdicts. |
| `RunGraphObject.RunGraph.SplitsObligations` | loopstrap_core/workflow.py:467-500 | The loop over children accepts exactly the splits that are nonempty, distinct, disjoint, covering and scope-narrowing. |
| `RunGraphObject.RunGraph.CreateChildren` | loopstrap_core/workflow.py:501-514 | The loop that creates the children yields the same graph as adding them one by one. |
| `RunGraphObject.RunGraph.Decompose` | loopstrap_core/workflow.py:467-514 | The in-place call equals the decomposition effect, all checks before any child exists. |
| `RunGraphObject.RunGraph.ListMissing` | loopstrap_core/workflow.py:516-535 | Nothing is missing exactly if the tests are frozen and executable, every obligation is tested and owned, no seam is open and the leaf review is accepted; what is missing is listed in the order of the checks. |
| `RunGraphObject.RunGraph.RecordVerification` | loopstrap_core/workflow.py:537-553 | The in-place call equals the verification effect. |
| `RunGraphObject.RunGraph.AllClosed` | loopstrap_core/workflow.py:555-561 | The loop decides whether every child is closed. |
| `RunGraphObject.RunGraph.BeginIntegration` | loopstrap_core/workflow.py:555-561 | The in-place call equals the integration-start effect. |
| `RunGraphObject.RunGraph.RecordIntegration` | loopstrap_core/workflow.py:563-578 | The in-place call equals the effect that may begin integration and then refuse. |
| `RunGraphObject.RunGraph.RecordPostReview` | loopstrap_core/workflow.py:580-592 | The in-place call equals the effect, revision not bumped. |
| `RunGraphObject.RunGraph.AddClaim` | loopstrap_core/workflow.py:594-617 | The in-place call equals the claim effect, allowed in every phase. |
| `RunGraphObject.RunGraph.ResolveClaim` | loopstrap_core/workflow.py:619-638 | The in-place call equals the resolution effect. |
| `RunGraphObject.RunGraph.Close` | loopstrap_core/workflow.py:645-664 | The in-place call equals the closing effect, refused over open claims, missing review or unready leaves. |
| `RunGraphObject.RunGraph.Reopen` | loopstrap_core/workflow.py:666-672 | The in-place call equals the reopening effect. |
| `RunGraphObject.RunGraph.ListAncestors` | loopstrap_core/workflow.py:674-680 | The parent loop ends and lists the same Cells as the recursive definition, in every tree. |
| `RunGraphObject.RunGraph.FindCommonAncestor` | loopstrap_core/workflow.py:682-689 | The search over ancestor sets returns the lowest common ancestor, in every tree. |
| `RunGraphObject.RunGraph.RouteVerifiedIssue` | loopstrap_core/workflow.py:691-717 | The in-place call equals the routing effect, claim and rewind at the common ancestor. |
| `Workflow.NothingMissingIsReady` | loopstrap_core/workflow.py:516-535 | An empty readiness list is the same as: review accepted, leaf without seams, frozen executable tests and every obligation mapped to a test. |
| `GraphInvariant.StepKeepsInv` | loopstrap_core/workflow.py:300-717 | Every operation, refused or not, keeps flags, tree shape and obligation splits of all Cells, and never lowers a revision. |
| `GraphInvariant.EveryRunKeepsInv` | loopstrap_core/workflow.py:131-717 | The graph invariant holds after every run of any calls, backward moves included. |
| `GraphInvariant.RunKeepsInv` | loopstrap_core/workflow.py:288-298 | From any good graph every run keeps the invariant; revisions never fall and every phase change raises the revision. |
| `GraphInvariant.FlagsMatchPhase` | loopstrap_core/workflow.py:537-592 | In every run exactly one pass flag holds iff the phase is post-review or closed; a verified Cell is ready; a closed Cell was accepted and is verified if childless, integrated otherwise. |
| `GraphInvariant.RefusalChangesNothing` | loopstrap_core/workflow.py:300-717 | For all seventeen operations: a refused call leaves the graph as it was exactly if it is not an integration result offered in the children phase over closed children. |
| `Walkthrough.RefusedResultMovesTheRoot` | loopstrap_core/workflow.py:563-578 | Every well-shaped workflow has a run after which a refused integration result changes the graph. |
| `GraphInvariant.RewriteKeepsInv` | loopstrap_core/workflow.py:288-298 | A consistent rewrite of one Cell in place keeps the invariant of the whole graph. |
| `GraphInvariant.TransitionEnters` | loopstrap_core/workflow.py:288-298 | In a well-shaped definition an outcome enters the kind it links to and raises the revision by one. |
| `GraphInvariant.PhaseForKindIsTheOne` | loopstrap_core/workflow.py:70-74 | A phase is found for a kind exactly if the kind has one phase, and it is that one. |
| `GraphInvariant.DecomposeEffect` | loopstrap_core/workflow.py:467-514 | An accepted decomposition adds exactly the listed children and changes nothing but the parent. |
| `GraphInvariant.DecomposeKeepsInv` | loopstrap_core/workflow.py:467-514 | Decomposition keeps one rooted tree with narrowing scopes, and the new children split the parent obligations. |
| `GraphInvariant.DecomposeSplitsParent` | loopstrap_core/workflow.py:480-497 | After a decomposition the current children own disjoint parts that cover the parent obligations. |
| `GraphInvariant.BeginIntegrationRewrites` | loopstrap_core/workflow.py:555-561 | Integration begins exactly when there are children and all are closed. |
| `GraphInvariant.RecordIntegrationRewrites` | loopstrap_core/workflow.py:563-578 | An integration result is all or nothing outside the children phase; from the children phase it keeps the Cell consistent even when refused midway. |
| `GraphInvariant.RouteRewrites` | loopstrap_core/workflow.py:691-717 | Routing an issue leaves the target consistent, tests frozen or not. |
| `Ancestry.AncestorsWiden` | loopstrap_core/workflow.py:674-680 | Going up, depth falls, scopes widen strictly and obligations grow. |
| `Ancestry.WalkEndsAtRoot` | loopstrap_core/workflow.py:674-680 | The walk from any Cell has one step per depth level and ends at the root. |
| `Ancestry.RootIsCommon` | loopstrap_core/workflow.py:682-689 | The root is an ancestor of every Cell. |
| `Ancestry.OneAncestorPerDepth` | loopstrap_core/workflow.py:674-680 | A Cell has one ancestor at each depth. |
| `Ancestry.RoutingTarget` | loopstrap_core/workflow.py:682-689 | The lowest common ancestor exists exactly for nonempty lists of known Cells, and is the unique deepest common ancestor. |
| `Ancestry.RoutingIgnoresOrder` | loopstrap_core/workflow.py:682-689 | The routing target depends on the set of affected Cells only. |
| `Closure.ForwardStep` | loopstrap_core/workflow.py:555-561 | Without backward moves, every call keeps closed Cells closed and children of integrated Cells closed. |
| `Closure.PathStaysClosed` | loopstrap_core/workflow.py:645-664 | In forward runs everything reachable through children from a closed Cell is closed. |
| `Closure.LeafIsUnique` | loopstrap_core/workflow.py:467-514 | Two childless Cells reachable from one Cell never own the same obligation. |
| `Closure.LeafExists` | loopstrap_core/workflow.py:467-514 | Every obligation of a Cell is owned by some childless Cell below it. |
| `Closure.ClosedLeafDelivers` | loopstrap_core/workflow.py:516-553 | A closed childless Cell is verified, reviewed, has nothing missing and maps each of its obligations to a test. |
| `Closure.ClosedRootDelivers` | loopstrap_core/workflow.py:467-664 | End to end: in every forward run that closes a Cell, all Cells reachable from it are closed and each of its obligations belongs to exactly one childless Cell, which delivers it. |
| `Promises.EveryStepMoves` | loopstrap_core/workflow.py:300-717 | Every call treats every Cell alike: forward calls never lower its stage, only freezing or revising changes its tests, only resolving unblocks a claim, only closing closes it. |
| `Promises.FrozenTestsStay` | loopstrap_core/workflow.py:360-382 | In forward runs a Cell never falls back a stage, and tests once frozen are the tests it keeps. |
| `Promises.NewTestsForgetOldResults` | loopstrap_core/workflow.py:384-419 | In any run whoever changes the tests of a Cell sends it to planning with nothing verified or integrated. |
| `Promises.VerifiedClaimBlocksClosing` | loopstrap_core/workflow.py:645-664 | In any run, backward moves included, a Cell with a verified claim does not close before that claim is resolved. |
| `Endorsement.EveryRunIsTimely` | loopstrap_core/workflow.py:580-717 | In every run, backward moves included, a Cell whose post-review stands accepted is in post-review or closed, with its verification or integration standing. |
| `Endorsement.VerificationStands` | loopstrap_core/workflow.py:537-592 | No forward call takes back a verification, and only a pre-review decides whether a Cell is a leaf. |
| `StandardWorkflow.StandardIsWellShaped` | tests/acceptance/support.py:13-61 | The standard definition has exactly one phase per kind and every link the operations need. |
| `StandardWorkflow.LoadableIsNotEnough` | loopstrap_core/workflow.py:25-68 | A definition that loads lets a root close after two calls with nothing verified. |
| `Loading.GuardedExactly` | loopstrap_core/workflow.py:25-68 | For a definition that loads: every call that closes a Cell does so after an accepted post-review with its results standing, exactly if no other used outcome, and not the initial phase, is closed. Both ways the graphs are all those that store their Cells under their own ids. |
| `Loading.NothingClosesUnreviewed` | loopstrap_core/workflow.py:640-664 | In every run of a guarded definition, well shaped or not, a closed Cell was closed by such a call. |
| `System.LoopstrapSystem.CreateRoot` | loopstrap_core/system.py:576-603 | On an active run the creation effect on the graph, then its event under the new Cell and revision and a checkpoint; if that id holds other content the call is refused over the changed graph. |
| `System.LoopstrapSystem.AcceptContract` | loopstrap_core/system.py:605-619 | As the graph call, recorded under the revision it led to with the phases it left and entered. |
| `System.LoopstrapSystem.FreezeTests` | loopstrap_core/system.py:621-650 | As the graph call, recorded with the frozen basis; a refused basis records nothing. |
| `System.LoopstrapSystem.RecordPlan` | loopstrap_core/system.py:652-675 | As the graph call, recorded with digest and responsibilities. |
| `System.LoopstrapSystem.RecordPreReview` | loopstrap_core/system.py:677-707 | Refused for a phase without role and for a configured role, for which this call brings no job; otherwise the graph call and its record. |
| `System.LoopstrapSystem.Decompose` | loopstrap_core/system.py:709-766 | The graph call, then one event and checkpoint per child and one for the split, up to the first id that is taken. |
| `System.LoopstrapSystem.RecordVerification` | loopstrap_core/system.py:1182-1206 | The orchestrated verification: the graph call and its record with the evidence. |
| `System.LoopstrapSystem.BeginIntegration` | loopstrap_core/system.py:1168-1180 | As the graph call, recorded with the children it integrates. |
| `System.LoopstrapSystem.RecordIntegration` | loopstrap_core/system.py:1141-1166 | From the children phase first a recorded start of integration, whose refusal ends the call, then the result and its record. |
| `System.LoopstrapSystem.RecordPostReview` | loopstrap_core/system.py:1219-1246 | Refused like a pre-review by role; recorded under the revision the Cell stays at, so a second one over the same checkpoint is refused. |
| `System.LoopstrapSystem.Close` | loopstrap_core/system.py:1297-1312 | As the graph call, recorded with the phase entered. |
| `System.LoopstrapSystem.Park` | loopstrap_core/system.py:1208-1217 | Refused unless active and for an empty reason; otherwise the status, its event under the length of the log, and a checkpoint. |
| `System.LoopstrapSystem.Pause` | loopstrap_core/system.py:1314-1323 | As parking, to paused. |
| `System.LoopstrapSystem.Halt` | loopstrap_core/system.py:1325-1335 | Refused when halted already and for an empty reason; otherwise recorded as halted. |
| `System.LoopstrapSystem.RecordIntervention` | loopstrap_core/system.py:1337-1361 | Refused without authorization, action or reason; otherwise stored, then recorded under its position. |
| `System.LoopstrapSystem.Resume` | loopstrap_core/system.py:1363-1387 | Refused without authorization, unless paused or parked, and unless an earlier intervention under it says continue; otherwise recorded as active. |
| `History.AppendSound` | loopstrap_core/ledger.py:113-155 | An append by stable id keeps log and memory sound whether or not it is refused; it is refused exactly over an event of that id with other content, where no checkpoint has the id yet. |
| `History.CallSound` | loopstrap_core/system.py:531-568 | Every call, accepted or refused, of any live system keeps every checkpoint in the log at or behind the memory, the status that of the last checkpointed change, and the graph one of a forward run. |
| `History.CallSaves` | loopstrap_core/system.py:531-568 | Every checkpoint a call adds saves its outcome, or the integration it began first. |
| `History.RecordedIff` | loopstrap_core/system.py:559-568 | A call the graph accepts is recorded exactly if no event has its id with other content and no checkpoint has its id; otherwise it is refused over the changed graph. |
| `History.SplitRecordedIff` | loopstrap_core/system.py:709-766 | An accepted split is recorded exactly if neither a birth nor the split clashes with an event in the log. |
| `History.ReviewAgainIsRefused` | loopstrap_core/system.py:1219-1246 | A post-review whose id is checkpointed already is refused when made again. |
| `System.FromDict` | loopstrap_core/workflow.py:198-276 | Loading returns the one graph that the saved form restores, or nothing if there is none. |
| `System.SavedGraphRestores` | loopstrap_core/workflow.py:148-276 | Every graph of every run survives saving and loading, and the saved form restores nothing else. |
| `DriverSteps.DriverNeverDeadlocks` | loopstrap_core/driver.py:68-89 | In every driver-reached graph with an open root the scheduler finds a Cell, and it chooses to integrate only over closed children. |
| `DriverSteps.NextIsVerdict` | loopstrap_core/driver.py:68-89 | Scanning in (-depth, id) order returns the verdict on the first open Cell. |
| `DriverSteps.ScanStopsAtFirstOpen` | loopstrap_core/driver.py:68-89 | The scan passes closed Cells and stops at the first open one. |
| `DriverSteps.ChildrenOfFirstAreClosed` | loopstrap_core/driver.py:68-89 | The first open Cell in schedule order has only closed children. |
| `DriverSteps.CallAdvancesByOne` | loopstrap_core/driver.py:123-241 | Every successful one-phase driver call adds exactly one to the progress count of the whole graph. |
| `DriverSteps.SplitCompletesReview` | loopstrap_core/driver.py:168-206 | Decomposing the reviewed composite restores the driver invariant and adds no progress of its own. |
| `Counting.LevelIsDisjoint` | loopstrap_core/workflow.py:480-497 | Two Cells of one depth own no common obligation. |
| `Counting.LevelSize` | loopstrap_core/workflow.py:480-497 | A level of the tree has at most as many Cells as the root has obligations. |
| `Counting.TotalIsBounded` | loopstrap_core/driver.py:243-271 | With no Cell below depth D and O root obligations, all progress together is at most O*(7*D+6). |
| `Counting.CompletedTotal` | loopstrap_core/driver.py:243-271 | With the root closed, progress is 6 per leaf and 7 per composite. |
| `Counting.NothingIsOpen` | loopstrap_core/driver.py:243-271 | With the root closed, no Cell is open. |
| `DriverRun.StepTurns` | loopstrap_core/driver.py:123-241 | Every driver action on a run that is not stuck, over any log: counted as one step exactly if it returns, moving nothing or at most one step if refused, with every checkpoint it adds one the driver can go on from, except the one between the halves of a split. |
| `DriverRun.CompositeTurns` | loopstrap_core/driver.py:188-205 | After its rehearsal a composite review is refused exactly if its event clashes with one in the log, and then the run is stuck; on a clean log both halves are recorded. |
| `DriverRun.ReviewTurns` | loopstrap_core/driver.py:168-206 | The same for every answer to a pre-review. |
| `DriverRun.FreshRootRuns` | loopstrap_core/system.py:576-603 | A fresh root with distinct obligations is a driver start over a clean log, with no progress made. |
| `Driver.LoopDriver.FindRoot` | loopstrap_core/driver.py:62-66 | Finds the root exactly if there is one and only one. |
| `Driver.LoopDriver.ScanInOrder` | loopstrap_core/driver.py:68-89 | The loop over the listing equals the recursive scan. |
| `Driver.LoopDriver.ApplyPreReview` | loopstrap_core/driver.py:168-206 | Trial on a copy, then commit: the system is changed only if the trial accepted every call. |
| `Driver.LoopDriver.ApplyResult` | loopstrap_core/driver.py:123-241 | A malformed or unacceptable answer changes nothing; an acceptable one becomes exactly its lifecycle calls. |
| `Driver.LoopDriver.Step` | loopstrap_core/driver.py:243-271 | One iteration equals the step function over which the run invariant is proved. |
| `Driver.LoopDriver.Turn` | loopstrap_core/driver.py:243-271 | One iteration with its parking equals the turn over which crashes are proved. |
| `Driver.LoopDriver.Run` | loopstrap_core/driver.py:243-271 | From a fresh run or one that was parked, resumed or opened again the loop ends for every provider that stops splitting at depth D: complete with the root delivering, or parked. Over a clean log its actions are exactly the progress made. |
| `Driver.FreshRunCounts` | loopstrap_core/driver.py:243-271 | From a fresh root it takes at most O*(7*D+6) actions, and exactly 6 per leaf plus 7 per composite if it completes. |
| `Recovery.OpenRun` | loopstrap_core/system.py:298-496 | Opening succeeds exactly on logs whose last checkpoint loads, and returns the checkpointed graph, status and interventions. |
| `Recovery.Replay` | loopstrap_core/state.py:9-54 | The reducer loop computes the status and interventions of the event log. |
| `Recovery.EveryHistory` | loopstrap_core/system.py:298-568 | Every run, however often it crashed at any record and was opened again, keeps log and memory sound. |
| `Recovery.EveryCutOpens` | loopstrap_core/system.py:298-447 | Cut at any record past the first checkpoint, the log of any run opens, on a memory as sound as a live one; its status is the replayed one exactly if the last status event has its checkpoint. |
| `Recovery.EveryCheckpointIsAMoment` | loopstrap_core/system.py:531-540 | Every checkpoint of every run saves what was in memory after one of its steps, or the integration a step began: opening never finds a state that was not there. |
| `Recovery.SuccessIsSaved` | loopstrap_core/system.py:559-568 | A call that returned left everything in memory in the last checkpoint. |
| `Recovery.NothingDoneIsLost` | loopstrap_core/system.py:298-447 | Whatever crashes and calls follow a call that returned, opening finds its step or a later one. |
| `Recovery.FirstCrashGoesBack` | loopstrap_core/system.py:298-447 | The first crash of a run goes back to the state after a prefix of its calls, or to the integration one of them had begun. |
| `Recovery.EveryGraphIsReachable` | loopstrap_core/system.py:298-447 | The graph in memory and in every checkpoint of a run with crashes is one that forward calls reach without any. |
| `Recovery.CrashBeforeCheckpoint` | loopstrap_core/system.py:559-568 | A crash between event and checkpoint opens on the memory before the call, over a log that has the event. |
| `Recovery.RedoneIffSame` | loopstrap_core/ledger.py:124-134 | Opened there, the call is accepted again exactly if its content is the same; otherwise it is refused over the changed graph. |
| `Recovery.ReplayAgreesWithRecovery` | loopstrap_core/state.py:42-50 | In every run and at every cut, replayed and recovered status agree exactly if the last status event is followed by its own checkpoint. |
| `Recovery.LostPause` | loopstrap_core/state.py:42-50 | A pause killed before its checkpoint: the run goes on as active and replays as paused, whatever is recorded after it. |
| `Recovery.UncrashedRunReplays` | loopstrap_core/state.py:9-54 | Without a crash, replaying gives the status and interventions in memory after every call. |
| `DriverRecovery.EveryDriverHistory` | loopstrap_core/driver.py:243-271 | However often a driver run crashes inside a turn and is opened, resumed and driven on, memory and disk hold graphs the driver left. |
| `DriverRecovery.TurnSticksExactly` | loopstrap_core/driver.py:168-206 | A turn gets a run stuck exactly if its answer is a split whose review clashes with an event a crash had left. |
| `DriverRecovery.CrashSticksExactly` | loopstrap_core/driver.py:188-205 | After a crash inside a turn a composite waits for children that were never recorded exactly if the last checkpoint is the one between the halves of a split, or the parking after such a clash. |
| `DriverRecovery.StuckForGood` | loopstrap_core/driver.py:68-89 | After any history an active run with an open root has a next action unless a composite waits for children, and then every action refuses and changes nothing; whether an answer to the next action succeeds is DriverBlocks.BlockedExactly. |
| `DriverRecovery.OtherSeamsStick` | loopstrap_core/driver.py:188-205 | From any state where a split is due: killed between the event and the checkpoint of its review, opened, and answered with other seams, the run waits for children; DriverWitness.OtherSeamsHappen leads a new run through it. |
| `Redo.CallFollows` | loopstrap_core/driver.py:123-241 | A driver call the graph accepts moves its Cell on by one revision, a post-review by none, and leaves it with the tests, responsibilities and absence of claims that its next call needs. |
| `DriverTracks.EveryHistoryIsKept` | loopstrap_core/system.py:531-568 | In every driver history, crashed and opened any number of times, the last checkpoint has the graph in memory, checkpoints follow each other, no event is more than one call ahead of the last checkpoint, and what an event of the next call says some answer can say again. |
| `DriverTracks.FreshRootIsKept` | loopstrap_core/system.py:576-603 | A system just created and given its root is where such a history can start. |
| `DriverBlocks.BlockedExactly` | loopstrap_core/driver.py:123-271 | In every driver history, at an active run with an open root: no answer of any provider makes the next action succeed exactly if a composite waits for children, or a review is due that no role can give, or the post-review of the next Cell is checkpointed at its revision and the Cell not closed. |
| `DriverBlocks.PostReviewIff` | loopstrap_core/driver.py:229-241 | A post-review and its closing go through exactly if the log has no checkpoint of that review, and no event of it with other evidence. |
| `DriverEnds.DeadEndLasts` | loopstrap_core/driver.py:243-271 | From such a dead end on, whatever the roles answer and the owner does, however often the run crashes, is opened and resumed, it is one: every answer is refused. |
| `DriverEnds.EveryHistoryIsSole` | loopstrap_core/system.py:1219-1246 | In every driver history a Cell whose post-review is checkpointed and that is not closed is the one the driver is at. |
| `DriverEnds.FreshRootIsSole` | loopstrap_core/system.py:576-603 | Every driver history can begin with any fresh root, where none of the ends holds. |
| `DriverEnds.CrashEndsExactly` | loopstrap_core/driver.py:188-241 | A crash at any record of a turn leaves a dead end exactly if the last checkpoint is the turn's and is that of the first half of a split, of a post-review, or of the parking after a split review that clashed; or if a review is due that no role can give. |
| `DriverEnds.TurnEndsExactly` | loopstrap_core/driver.py:243-271 | A turn that was not killed leaves a dead end exactly if it answered with a split whose review clashed, or a review is due next that no role can give. |
| `DriverEnds.ReviewRedoneIffSame` | loopstrap_core/driver.py:229-241 | A post-review whose event is in the log without its checkpoint goes through, closing its Cell, exactly with the same evidence. |
| `DriverWitness.KilledBeforeClosing` | loopstrap_core/driver.py:229-241 | From a new run on: five turns, then killed between the post-review of the root and its closing; the run opens active, with an action to take, and no answer to it will do. |
| `DriverWitness.OtherSeamsHappen` | loopstrap_core/driver.py:188-205 | From a new run on: three turns, killed inside the split review of the root, opened and answered with other seams, the run is at a dead end. |
| `DriverWitness.StandardIsReviewable` | tests/acceptance/support.py:13-61 | The standard workflow with no role configured has both runs. |
| `Staleness.RevisionsDatePhases` | loopstrap_core/workflow.py:288-298 | Between any two moments of any run a Cell revision never falls, and equal revisions mean equal phases. |
| `Staleness.AuthorizationsExpireForGood` | loopstrap_core/authority.py:103-120 | An authorization bound to a superseded revision never validates again, whatever happens in the run. |
| `Evidence.Tally` | loopstrap_core/evidence.py:341-359 | The loop fills satisfied, unsatisfied and qualifying exactly as the sets say. |
| `Evidence.Evaluate` | loopstrap_core/evidence.py:304-368 | The engine refuses ill-posed questions and otherwise returns the verdict. |
| `Evidence.MatchesCountRecords` | loopstrap_core/evidence.py:344-355 | Counting ids counts records: no record is counted twice. |
| `Evidence.AcceptedMeans` | loopstrap_core/evidence.py:304-368 | Accepted iff every obligation has its minimum of qualifying records and no finding is open. |
| `Evidence.VerdictPartitions` | loopstrap_core/evidence.py:355-368 | Satisfied and unsatisfied ids partition the obligations, each on the right side. |
| `Evidence.VerdictIgnoresOrder` | loopstrap_core/evidence.py:304-368 | The record is the same for any order of obligations, evidence and findings. |
| `Evidence.EvidenceAddsUp` | loopstrap_core/evidence.py:304-368 | More evidence never revokes a satisfied obligation or an acceptance. |
| `Evidence.StaleEvidenceNeverQualifies` | loopstrap_core/evidence.py:283-302 | Evidence bound to a superseded revision does not qualify after any further run. |
| `Evidence.BlockingClaimForbidsAcceptance` | loopstrap_core/system.py:1452-1505 | No run is accepted over a blocking claim. |
| `Containment.ContainmentSearch.Descend` | loopstrap_core/contracts.py:538-553 | Exploring a Cell ends; it returns a real cycle or settles the Cell and all below it. |
| `Containment.ContainmentSearch.Verify` | loopstrap_core/contracts.py:515-556 | The search refuses exactly when containment has a cycle, and on success leaves ranks that fall along every containment edge. |
| `Containment.RankedIsAcyclic` | loopstrap_core/contracts.py:515-556 | A rank function excludes every cycle. |
| `Containment.AllSettled` | loopstrap_core/contracts.py:515-556 | When every Cell is settled the heights are such ranks. |
| `Contracts.FindPort` | loopstrap_core/contracts.py:232-246 | Finds the port with the id exactly if it is the only one. |
| `Contracts.CheckContainment` | loopstrap_core/contracts.py:515-556 | Over the known members of interiors: no cycle reported iff a rank function exists, and a reported cycle is one. |
| `Contracts.CheckSide` | loopstrap_core/contracts.py:558-609 | One side of an interior passes only if it equals the declared ports by position and schema, unless a reference is left to the later checks. |
| `Contracts.CheckBoundaries` | loopstrap_core/contracts.py:558-609 | A refusal names a real mismatch; passing leaves only unresolvable references. |
| `Contracts.CheckExclusive` | loopstrap_core/contracts.py:440-454 | The claims loop refuses exactly when some contract is claimed exclusively twice. |
| `Contracts.CheckComposite` | loopstrap_core/contracts.py:456-513 | The per-composite checks accept exactly the composites that are wired within their members on ports of equal schema, with supported guarantees. |
| `Contracts.Validate` | loopstrap_core/contracts.py:408-513 | Validation accepts exactly the graphs described by Accepted, whatever order the checks run in. |
| `Contracts.ExclusiveMeansOne` | loopstrap_core/contracts.py:440-454 | In an accepted graph an exclusive contract is the responsibility of one guarantee of one Cell. |
| `Ports.TrailKeepsSchema` | loopstrap_core/contracts.py:558-609 | Following a port inward, every place is a declared port of the first schema, directly inside the one before. |
| `Ports.TrailIsSimple` | loopstrap_core/contracts.py:515-556 | Following a port inward never meets a Cell twice. |
| `Ports.PortsResolve` | loopstrap_core/contracts.py:515-609 | Following any declared port of an accepted graph ends within as many places as there are Cells, at a Cell without interior, on a port of the same schema. |
| `Ports.ConnectionsSurviveResolution` | loopstrap_core/contracts.py:456-490 | Every connection stays schema-compatible when both ends are replaced by the ports that implement them. |
| `Ledger.EventLedger.ReadUnlocked` | loopstrap_core/ledger.py:61-103 | Reading succeeds exactly on files that decode to a chained log without repeated ids, and returns that log. |
| `Ledger.EventLedger.Append` | loopstrap_core/ledger.py:113-155 | Appends once per event id: the same content returns the event there, other content is refused, anything refused leaves the file alone, and a new event extends the verified log by itself. |
| `Ledger.EventLedger.QuarantinePartialTail` | loopstrap_core/ledger.py:157-182 | Cuts the file at its last complete line; what stays and what was cut make up the original. |
| `Ledger.ReadsOnce` | loopstrap_core/ledger.py:61-103 | A file reads as one log at most. |
| `Ledger.ReadsMore` | loopstrap_core/ledger.py:136-149 | A sealed record appended to a file that reads makes it read as the log plus that event. |
| `Ledger.LinesGrow` | loopstrap_core/ledger.py:67-67 | Splitting into lines after one more record yields the old lines and the new one. |
| `Ledger.HeadHashDecides` | loopstrap_core/ledger.py:48-49 | Two nonempty verified logs with the same head hash are equal. |
| `Ledger.CrashIsAtomic` | loopstrap_core/ledger.py:145-182 | A crash after any number of bytes of a record leaves the old log, the new log, or a partial tail whose removal gives back the old file. |
| `LedgerSteps.StepKeeps` | loopstrap_core/ledger.py:105-182 | Every step of every process keeps lock discipline, the committed log and the order of observations, and the committed log only grows. |
| `LedgerSteps.EveryLedgerRun` | loopstrap_core/ledger.py:105-182 | The same for every interleaving of appenders, readers, cleaners and crashes from an empty ledger. |
| `LedgerSteps.ObservationsAreOrdered` | loopstrap_core/ledger.py:105-155 | Logs seen later extend logs seen before, hold every event returned before, always verify, and an id names one event for good. |
| `LedgerSteps.ParseGivesLog` | loopstrap_core/ledger.py:61-64 | A reader outside the exclusive lock gets exactly the committed log, or is refused because of a partial tail. |
| `LedgerSteps.QuarantineHeals` | loopstrap_core/ledger.py:157-182 | With the lock free the file reads iff it has no partial tail, and one quarantine makes it read without losing anything observed. |
| `Dispatch.DispatchJournal.Reserve` | loopstrap_core/recovery.py:39-81 | A free key is reserved once; the same request gets the same reservation; any other request for the key is refused. |
| `Dispatch.DispatchJournal.FindReservation` | loopstrap_core/recovery.py:83-87 | Finds the first reservation of the job. |
| `Dispatch.DispatchJournal.AcceptResponse` | loopstrap_core/recovery.py:89-123 | Accepts only a response at the revision of both reservation and Cell; any other is recorded stale and refused. |
| `Dispatch.AppendKeeps` | loopstrap_core/ledger.py:124-134 | An idempotent append keeps ids unique and everything logged. |
| `DispatchSteps.StepKeeps` | loopstrap_core/system.py:794-995 | Every step of any number of dispatching processes, failures, crashes and reopenings keeps the dispatch invariant. |
| `DispatchSteps.EveryDispatchRun` | loopstrap_core/system.py:794-995 | The dispatch invariant holds in every run. |
| `DispatchSteps.HarnessRunsAtMostOnce` | loopstrap_core/workspace.py:155-162 | No job harness is launched twice, whatever the retries, failures, crashes and reopenings, and whether or not its process lives to see it return; every accepted result is of a launched job. |
| `DispatchSteps.OneReservationPerKey` | loopstrap_core/recovery.py:39-81 | Despite the gap between scan and append, one reservation exists per key and every caller that succeeds holds it. |
| `DispatchSteps.OneAcceptedResult` | loopstrap_core/recovery.py:89-123 | A job has at most one accepted result, at the revision of its reservation. |
| `DispatchSteps.DispatchesAgree` | loopstrap_core/system.py:823-846 | Every dispatch that returns for a key returns the same job and response. |
| `DispatchSteps.FindsTheReservation` | loopstrap_core/recovery.py:83-87 | The first reservation found for a job is its only one. |
| `DispatchSteps.LastJobsBacked` | loopstrap_core/system.py:298-447 | Jobs recovered from the last checkpoint all have their accepted result in the log. |
| `DispatchSteps.StrandedForGood` | loopstrap_core/system.py:823-846 | A job with a workspace that no process and no last checkpoint knows is never returned in any further run. |
| `DispatchSteps.CheckpointedJobReturns` | loopstrap_core/system.py:833-846 | A job in the last checkpoint is returned again after a reopening. |
| `DispatchSteps.RedispatchAfterCrash` | loopstrap_core/system.py:794-995 | After a crash of everything a started job can be returned again iff the last checkpoint holds it. |
| `DispatchSteps.LaunchedJobStrands` | loopstrap_core/system.py:920-944 | A new run that scans, reserves, prepares, launches the harness and dies: no further run returns that job. |
| `DispatchSteps.EveryRunIsCharged` | loopstrap_core/system.py:940-944 | In every run every live process has charged every job it remembers, exactly as its harness reported, and every checkpointed job can be charged again. |
| `DispatchSteps.AnyListingRecharges` | loopstrap_core/system.py:476-487 | Opening charges the checkpointed jobs to the same charges in any order. |
| `DispatchSteps.UsageSurvivesOpening` | loopstrap_core/system.py:476-487 | The jobs a process remembers, charged again, have the totals they had live; live totals are these plus what was charged for dispatches that became no such job. |
| `Promotion.WorkspaceManager.Initialize` | loopstrap_core/workspace.py:137-153 | The pointer is set once, and again only to the same stored snapshot, which the current snapshot then reads back; a refused call leaves what it reads. |
| `Promotion.WorkspaceManager.Prepare` | loopstrap_core/workspace.py:155-162 | A workspace is made exactly for a safe job id that has none, on a stored base, and never replaced. |
| `Promotion.WorkspaceManager.Promote` | loopstrap_core/workspace.py:175-189 | The pointer moves exactly when the caller is permitted and it equals the expected snapshot, and then the current snapshot reads back the candidate; it is the swap of every promoter. |
| `Promotion.Replay` | loopstrap_core/state.py:40-41 | The reducer loop yields the snapshot of the last promotion event. |
| `PromotionSteps.StepKeeps` | loopstrap_core/system.py:794-1312 | Every step of every process keeps each memory a graph that calls lead to, with jobs on the bases their workspaces were made from and promotions chained. |
| `PromotionSteps.EveryRunIsChained` | loopstrap_core/system.py:1248-1295 | The same for every interleaving of dispatches, verifications, reviews, promotions, closings, checkpoints, crashes and openings. |
| `PromotionSteps.EveryJobIsTraced` | loopstrap_core/system.py:1041-1071 | Every job in any memory and every promoted one was dispatched by a step of the run from the base due then, and if verified then by a step that recorded its verification with nothing missing. |
| `PromotionSteps.PointerHasProvenance` | loopstrap_core/system.py:1248-1295 | The pointer is the source or the last promoted candidate; every promoted candidate was verified on a Cell with nothing missing, its Cell is past an accepted post-review with results standing and no claim open, and each promotion started where the last one ended. |
| `PromotionClosing.EveryRunSettles` | loopstrap_core/system.py:1041-1312 | In forward runs a verified job has the verification of its Cell, a Cell has at most one verified job, a closed Cell that was dispatched for has a promoted one, and a reviewed composite has a job. |
| `PromotionClosing.ClosedCellsAreDelivered` | loopstrap_core/system.py:1297-1312 | A closed Cell that was ever dispatched for is a leaf with nothing missing; exactly one of its jobs is verified, and its candidate was promoted. |
| `PromotionClosing.CompositeClosesExactly` | loopstrap_core/system.py:1297-1312 | In every forward run: a call to close a decomposed Cell that the graph would accept closes it exactly if no job in memory was dispatched for that Cell. |
| `PromotionClosing.DispatchedCompositesStayOpen` | loopstrap_core/system.py:1297-1301 | In every forward run a decomposed Cell for which any job was dispatched is open; the converse, for the call that would close it, is CompositeClosesExactly. |
| `PromotionClosing.ReviewedCompositesStayOpen` | loopstrap_core/system.py:1013-1039 | Where the pre-review role is configured, no decomposed Cell ever closes. |
| `PromotionClosing.StandardIsRoleless` | tests/acceptance/support.py:13-61 | The standard workflow is one of those, and configures its pre-review exactly with the decomposition adversary. |
| `ClosingWitness.ReviewedRootCannotClose` | loopstrap_core/system.py:1297-1312 | From a new run on: a root is split under its configured review, its child delivered, promoted and closed, and the root integrated and reviewed; the graph accepts its closing and the system refuses it. |
| `ClosingWitness.StandardIsStaffed` | tests/acceptance/support.py:13-61 | The standard workflow with its implementer and its decomposition adversary has such runs. |
| `PromotionReplay.PromotionAgrees` | loopstrap_core/state.py:40-41 | After an undisturbed promotion replay sees the pointer iff the job was not promoted before or changes nothing. |
| `PromotionReplay.SerialRunsReplay` | loopstrap_core/state.py:40-41 | In serial runs replay sees the pointer from the first promotion on, whenever none is half done. |
| `PromotionWitness.OverlapParts` | loopstrap_core/system.py:1248-1295 | From a new run on, without a crash: two Cells are delivered on one another, their promotions overlap, and replay ends on the replaced candidate. |
| `PromotionWitness.CrashParts` | loopstrap_core/system.py:1268-1295 | From a new run on: a promoter dies after its swap, and replay sees no promotion. |
| `PromotionWitness.RepetitionParts` | loopstrap_core/system.py:1268-1295 | From a new run on, one promoter: a job is promoted, undone by the next and promoted again, and replay ends on the undoing. |
| `PromotionWitness.StandardIsWorkable` | tests/acceptance/support.py:13-61 | The standard workflow under its implementer alone has such runs. |
| `Usage.BudgetLedger.Charge` | loopstrap_core/budget.py:131-133 | Invalid usage changes nothing; valid usage is added to the totals. |
| `Usage.UsageChargeLedger.ChargeDispatch` | loopstrap_core/certification.py:1061-1122 | Each dispatch is charged once; retries and refusals change nothing; totals stay the sum over distinct dispatches. |
| `Usage.UsageChargeLedger.Rebuild` | loopstrap_core/system.py:476-487 | Charging the checkpointed jobs again goes through iff every report is well formed and no dispatch has two, and gives the charges they stand for. |
| `Usage.ChargeOf` | loopstrap_core/certification.py:1088-1119 | A measured report gives a valid usage bound to the report. |
| `Usage.TotalSplits` | loopstrap_core/budget.py:45-55 | Totals over disjoint dispatches add up. |
| `Usage.ChargesAre` | loopstrap_core/certification.py:1061-1122 | Consistent requests leave exactly the charges they stand for. |
| `Usage.OrderIsIrrelevant` | loopstrap_core/certification.py:1061-1122 | Consistent requests give the same charges in any order and with any repetition. |
| `Usage.OrderIsIrrelevantIff` | loopstrap_core/certification.py:1079-1084 | Charges depend on nothing but the set of reports iff no dispatch has two different chargeable ones. |
| `Usage.FirstWins` | loopstrap_core/certification.py:1079-1084 | The first chargeable report of a dispatch is the one charged, whatever follows. |
| `Usage.RebuildConserves` | loopstrap_core/system.py:476-487 | After a reopening the totals are those of the checkpointed jobs; live totals are these plus what was charged for dispatches that became no job. |

## Left out

- Cells are values in the graph's map, replaced on update; aliasing of one Cell object from several places is not captured.
- Event payloads beyond what a result needs, actors and timestamps of graph events, and telemetry.
- Ledger I/O errors and short writes that return without a crash; a record is written byte by byte or the writer dies.
- LedgerSteps.StepKeeps: a refused append records no observation, so nothing is said about which refusal its caller saw.
- System.LoopstrapSystem.Close: does not model the check that a Cell with jobs needs a promoted one, because this system has no jobs; the check and what it implies are in PromotionSteps and PromotionClosing.
- System.LoopstrapSystem.RecordPreReview: does not take a review job, because this system has no jobs; PromotionSteps.Reviewed models the job a configured role brings.
- System.LoopstrapSystem.RecordPostReview: likewise without a review job.
- System.LoopstrapSystem.Decompose: does not model the binding of children to a contract graph, because the driver setting has none.
- System.LoopstrapSystem.RecordVerification: models the orchestrated path of the driver; verification of a job is a step of PromotionSteps.
- Driver.LoopDriver.Run: the provider is a function of the action count and the request; HarnessRoleExecutor is not part of this model.
- Loading.GuardedExactly: its graphs are all those that store their Cells under their own ids, so without the guard the graph that closes a Cell unreviewed need not be one a run reaches; NothingClosesUnreviewed is about runs.
- DriverBlocks.BlockedExactly: an answer that goes through may split a Cell at any depth; that a provider stops splitting at a depth is not held against it.
- PromotionReplay.SerialRunsReplay: one way only over whole runs; the equivalence is for one undisturbed promotion, PromotionReplay.PromotionAgrees.
- Recovery.OpenRun: configuration, specification and artifact checks of opening are not modelled; it is about graph, status and interventions. Jobs and usage after an opening are in DispatchSteps and PromotionSteps.
- Recovery.Replay: reduces status and interventions only; the replayed Cells and job states are summaries for display that nothing reads back, and the replayed candidate snapshot is Promotion.Replay.
- Recovery.UncrashedRunReplays: says nothing of interventions after a crash; an intervention refused for its id is in memory and not in the log.
- PromotionSteps.StepKeeps: role independence, authorizations, harness failures and the status of a review job's result are not modelled; checkpoints happen at any moment between calls, and closing and reviewing write no events there.
- Contracts.Validate: the separate checks of a single Cell or composite contract while parsing (field presence, port and obligation uniqueness within one contract) are not modelled; no result needs them.
- Contracts.Validate: says whether a graph is accepted, not which diagnostic is raised first.
- Promotion.WorkspaceManager.Prepare: snapshots are opaque ids in a set; materialization, symlinks and file modes are not modelled.
- DispatchSteps.StepKeeps: role routing and authorization before a harness run appear only as a step that may raise.
- Usage.UsageChargeLedger.ChargeDispatch: amounts are exact numbers, so rounding, infinities and the finite-number check are not modelled.
- Evidence.Evaluate: parsing of records and the raw execution custodian are not modelled.
- Interleavings of several live systems on one graph: each process's graph is its own memory.
- Certification receipts, vendor adapters, harness protocol, launch attestation, CUE compilation and the command line: I/O or shape checks that would only add easy members.
