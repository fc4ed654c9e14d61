# Verified model of an autonomous coding agent

A Dafny model of the state machines and algorithms at the core of the agent, with proofs of what
they guarantee on every input, every run and every interleaving. `dafny verify dfyconfig.toml`
checks the whole project. Inductions are written out: every lemma carries `{:induction false}`.

## What is modelled

**Milestone graph.** `Milestones` holds the node list and what each action leaves; `Digraph` defines
cycles and topological orders once, for both detectors. `Validation` is the three-colour depth-first
search, `TopoSort` is Kahn's algorithm from the engineer-job workflow, and `DetectorsAgree` shows that
the two accept the same graphs. `GraphInvariants` is what the actions keep, `Scheduler` is choosing and
draining, `WorkGraphs.WorkGraph` is the mutable object, `AdvanceRuns` lets any number of workers choose
and finish milestones concurrently, `GraphFile` is the lock, temporary file and rename protocol with
failures and crashes, `FileClosures` what each closure makes of the graph, `LockedAdvances` puts protocol
and workers together, and `MilestoneLoop` is the loop with retry, degradation and skip cascade.

**Conversation history.** `Messages`, `SessionTree`, `Compaction`, `Wire` and `Agent` are the message
model, the session tree, both compaction tiers, the lowering to the provider's format and the turn
machine. `Discipline` states the order in which a thread is written, `CompactionKeepsPairing` shows that
compaction keeps it, and `RequestPairing` has the end-to-end theorem: in every run of turns, navigations,
clears and resumes, every request is well paired. `ReusedIds` and `RequestPairing` give the exact
condition when call ids repeat, and `RequestBasis` says which part of the thread decides it. `TurnLaws`
reads the laws of one turn off its trace. `WorkingSetContents`, `WireContents` and `RoundContents` say
what is in a working set, a request and a round: which texts, calls and results, in which order and under
which role. `SummaryCache` compares the incremental summary with summarising from scratch.
`AgentLoops.AgentLoop` is the agent as a mutable object, proved equal to the state machine, command by
command. `TreeView` and `TreeViewLaws` are the tree listing.

**Smaller pieces.** `Calendar` (epoch seconds to a Gregorian date), `CronExpr`, `CronStores` and
`CronRuns` (cron fields, store and poll) with `CronLaws` (reading and order), `Supervision`, `SupervisorSteps`
and `SupervisorRuns` (crash budget over daemon lives), `EventBuses` and `Connections` (subscribers, writer
threads and their shutdown). `Strings` has the string operations of the standard library that all this
rests on, and `Sequences.Filtered` says what it means to keep some elements of a sequence in order.

Replies of the provider, summaries, outcomes of tools, cancellations, queued input, the size tests of
compaction, clock readings and failures of reads, writes and spawns are parameters. Every theorem ranges
over all of them, except where its row below or "Left out" names what it assumes. `ScriptedRuns` holds the
plain turns of which the concrete runs are made.

## What the proofs found

- A plan failure writes `Blocked` over whatever status the milestone has by then. If another worker has
  finished it and something that depends on it, the dependent stays done above an unfinished dependency
  (`AdvanceRuns.LatePlanFailureBreaks`). A completion that comes after such a failure, or after the id of
  a removed milestone has been handed out again (ids are one above the highest), does the same
  (`AdvanceRuns.LateCompletionBreaks`, `AdvanceRuns.ReusedIdBreaks`). Exactly when one step keeps the
  property, and exactly which runs keep it throughout: `AdvanceRuns.StepKeepsClosedIff`,
  `AdvanceRuns.RunIsClosedIff`.
- A loaded file in which nothing is ready and not all is done stalls for ever, although it would proceed
  after recomputing; a stale `Blocked` node alone is enough (`Scheduler.StaleBlockStalls`). Every other
  file of pending, blocked and done nodes is finished (`Scheduler.DrainCompletesIff`).
- `with_lock` reads the graph with `read`, which takes a file that cannot be read or parsed for the todo list
  or for an empty graph, and then saves over it: milestones are lost and their ids handed out again
  (`GraphFile.UnreadFileLosesMilestone`; exactly when a commit loses a milestone: `GraphFile.LostIff`).
- Navigating does not clear the summary cache. Once the covered message is no longer on the thread, the
  next incremental summary includes abandoned messages (`SummaryCache.StaleCacheLeaks`, in a run of the
  agent `SummaryCache.BranchedSummaryLeaks`; exactly which summaries of a run are affected:
  `SummaryCache.SummaryIsWholeIff`, `SummaryCache.RunIsWholeIff`).
- A call left unanswered by a cancellation whose id is used again survives the sanitiser without a
  result (`ReusedIds.ReusedIdBreaksPairing`, in a run of the agent `RequestPairing.ReusingRunFails`;
  exactly which requests of any run fail, told from the thread: `RequestBasis.RequestOfRunIsPairedIff`).
- The comment on `apply_tier2` promises one summary after the anchor; when tier 1 has already dropped
  the whole span, the code inserts none (`CompactionKeepsPairing.SummaryIsLost`; exactly when:
  `CompactionKeepsPairing.SummaryIsLostIff`).
- A service that has used up its crash budget is started again when the last crash could not be saved, or
  when the state file cannot be read (`SupervisorRuns.BudgetIsOverrun`; exactly in which runs:
  `SupervisorRuns.SpawnsInBudgetIff`).
- In cron fields, `*/n` counts from 0 also for days and months, which start at 1, and `m/n` matches `m`
  alone, and only if `n` divides `m` (exactly when this is usual cron: `CronExpr.StarStepIsUsualIff`,
  `CronExpr.SteppedNumberIsUsualIff`); `5/2 * * * *` is accepted and never fires (`CronExpr.NeverFires`).
- Kahn's algorithm of the workflow keeps one counter for all milestones with the same id. It reports a
  cycle in an acyclic list exactly when a repeated id has dependencies, and can accept a cyclic list when
  a repeated id is a dependency (`TopoSort.TopoSort`, `TopoSort.RepeatsMislead`).

## Model

| member | source | states |
|---|---|---|
| Digraph.NoSinkMeansCycle | src/workgraph.rs:289-314 | a non-empty set of nodes, each depending on one of the set, contains a cycle: the completeness half of both detectors |
| Digraph.TopoOrderMeansAcyclic | src/workgraph.rs:289-314 | a graph whose nodes can all be listed dependencies first has no cycle: the soundness half |
| Milestones.NextId | src/workgraph.rs:189-191 | the new id is one above the highest, 1 for an empty graph |
| Milestones.RecomputeDerives | src/workgraph.rs:268-277 | one pass settles every derived status: Pending nodes have all dependencies done, Blocked ones do not |
| Milestones.RecomputeKeepsDone | src/workgraph.rs:268-277 | recomputing never makes a node done or undone |
| GraphInvariants.RecomputeIs | src/workgraph.rs:264-277 | node by node: in progress, done and the cause-tree statuses stay as they are with everything else, and Pending or Blocked follows from whether all dependencies are done |
| Validation.Validate | src/workgraph.rs:280-296 | accepts exactly the graphs whose dependencies are all known and acyclic, and then has produced a topological order of all nodes; otherwise names the first unknown dependency in storage order, or a milestone from which dependencies lead into a cycle |
| Validation.HasCycleFrom | src/workgraph.rs:298-314 | an on-stack hit exhibits a real cycle, reached from the root of the search; otherwise the node and all it reaches extend one topological order shared by all roots, and colours only deepen |
| Validation.FindUnknownDep | src/workgraph.rs:281-287 | reports a dangling dependency if and only if there is one, and then the first one in storage order |
| GraphInvariants.NewNodeClosesNoCycle | src/workgraph.rs:197-200 | a new node with known dependencies leaves a well-formed graph well formed |
| GraphInvariants.AddOnSoundGraph | src/workgraph.rs:201-224 | on a consistent graph, settled or not, add refuses exactly blank titles and unknown dependencies, and the result is sound |
| GraphInvariants.AddEffect | src/workgraph.rs:201-224 | the new id is fresh; ids, dependencies and doneness of all others stay |
| GraphInvariants.AddIs | src/workgraph.rs:201-224 | the new node comes last, with the returned id, the trimmed title, the given dependencies, nothing touched, and the status that follows from them; the others change by recomputing only |
| Strings.TrimIs | src/workgraph.rs:202-205 | trimming takes all white space at both ends and nothing else |
| GraphInvariants.AddKeepsAscending | src/workgraph.rs:201-224 | graphs built by add list their nodes by id, dependencies below dependents |
| GraphInvariants.SetStatusOnSoundGraph | src/workgraph.rs:228-235 | the node gets the doneness asked for, no other node's doneness changes, soundness and shape stay |
| GraphInvariants.SetStatusIs | src/workgraph.rs:228-235 | on any graph: refused exactly for ids not in use; otherwise the first node with the id gets the status asked for, unless it is one of the two that follow from the dependencies, and every node changes by recomputing only |
| GraphInvariants.RemoveOnSoundGraph | src/workgraph.rs:238-249 | on a consistent graph, settled or not, remove succeeds exactly on a known node without dependents and leaves a sound graph |
| GraphInvariants.RemoveEffect | src/workgraph.rs:238-249 | only the removed node disappears; dependencies and doneness of the rest stay |
| GraphInvariants.RemoveIs | src/workgraph.rs:238-249 | exactly the nodes with that id go; the others keep their order and change by recomputing only |
| GraphInvariants.ResetEffect | src/background.rs:217-226 | the reset turns what is in progress into pending and changes nothing else, so neither ids nor dependencies nor doneness |
| WorkGraphs.WorkGraph.RecomputeBlocked | src/workgraph.rs:268-277 | in place, every node is settled against the statuses before the call |
| WorkGraphs.WorkGraph.Add | src/workgraph.rs:201-224 | the object after add is the specified one; a failed add leaves it untouched |
| WorkGraphs.WorkGraph.SetStatus | src/workgraph.rs:228-235 | the object after set_status is the specified one; false and unchanged for an unknown id |
| WorkGraphs.WorkGraph.Remove | src/workgraph.rs:238-249 | the object after remove is the specified one; a refused remove changes nothing |
| WorkGraphs.WorkGraph.DriveWorkgraph | src/agent.rs:2221-2272 | the bounded advance loop, around turns that may change the graph arbitrarily between choosing a milestone and marking it, finishes the milestones of the specified loop, in its order |
| Scheduler.LowestReady | src/workgraph.rs:253-258 | the result is ready and has the lowest id of the ready nodes; none means no candidate is ready |
| Scheduler.ReadyUnlessAllDone | src/workgraph.rs:253-277 | liveness: in a well-formed graph of pending, blocked and done nodes without stale blocks, nothing is ready if and only if all are done |
| Scheduler.StaleBlockStalls | src/workgraph.rs:133-146 | a concrete loaded file with a stale Blocked node in which nothing is ever ready, although it would proceed after recomputing |
| Scheduler.DrainCompletesIff | src/background.rs:448-560 | some budget finishes everything if and only if something is ready to begin with or all is done |
| Scheduler.ResetIsStartable | src/background.rs:217-226 | after the reset of milestones in progress, which does not recompute, a sound graph can still be drained to the end |
| Scheduler.DrainCount | src/background.rs:448-452 | on any closed acyclic graph of pending, blocked and done nodes, settled or not, in which something is ready or all is done, a drain with a budget finishes exactly the smaller of the budget and the number of undone milestones, and all of them if the budget suffices |
| Scheduler.DrainFinishesOnce | src/background.rs:553-560 | on such graphs, whether or not anything is ready, it finishes only undone milestones, each once, and changes no other doneness |
| Scheduler.DrainFollowsDependencies | src/background.rs:448-560 | on such graphs each milestone is finished after all its dependencies |
| Scheduler.DrainAscends | src/workgraph.rs:253-258 | on graphs built by add the order of work is ascending by id |
| Scheduler.DrainKeepsSound | src/background.rs:448-560 | draining keeps the graph closed and acyclic and its shape unchanged, and after the first completion every derived status is settled |
| Scheduler.QuietTurnsDrain | src/agent.rs:2221-2272 | with turns that leave the graph alone, the advance loop is the drain |
| Scheduler.RoundFinishesReady | src/agent.rs:2221-2272 | whatever the turns do to the graph: every finished milestone was ready in the graph its round started from; its status is set to done after the turn, so that it is done if the turn has not removed it and nothing else has changed since the turn but derived statuses |
| Scheduler.DrainStops | src/agent.rs:2221-2272 | the loop stops before its turns are used up only when nothing is ready, and leaves the graph that its rounds left |
| AdvanceRuns.AdvancesKeepDoneClosed | src/background.rs:448-560 | in every interleaving of adds, choices, completions and resets by any number of workers, from any file in which it holds, nothing is done before its dependencies |
| AdvanceRuns.StepKeepsClosedIff | src/background.rs:448-560 | on a consistent graph, settled or not, each add, choice, completion, plan failure, status change, removal or reset keeps "nothing is done before its dependencies" if and only if it passes its check on the current graph: a milestone made done has its dependencies done, one made undone has no done dependent |
| AdvanceRuns.RunIsClosedIff | src/background.rs:448-560 | over every run of these steps by any number of workers, the property holds throughout if and only if every step passes its check |
| AdvanceRuns.LatePlanFailureBreaks | src/background.rs:468-475 | a run of two workers from the empty graph that breaks it by a plan failure |
| AdvanceRuns.LateCompletionBreaks | src/background.rs:553-560 | a run from the empty graph in which a plan failure passes its check and the completion after it breaks the property |
| AdvanceRuns.ReusedIdBreaks | src/workgraph.rs:189-191 | a run from the empty graph in which a removed id is handed out again and a late completion breaks the property |
| GraphFile.FileIsFoldOfCommits | src/workgraph.rs:149-187 | in every interleaving with any failures and crashes the file is the fold of the renamed closures in lock order, each succeeded on what it read, be it the file, the todo list or nothing, and every reported success is among them |
| GraphFile.OnlyRenameChangesFile | src/workgraph.rs:149-187 | readers see a change only at a rename by the lock holder, and then exactly its closure's result; a failed closure or a crash changes nothing |
| GraphFile.CallCommits | src/workgraph.rs:164-187 | a call that nobody disturbs and whose closure succeeds commits its result and gives the lock back |
| FileClosures.OthersLeaveAlone | src/tool/dev.rs:225-226 | listing, a status for an unknown id and a failing action of the milestone tool save what was read |
| FileClosures.ReopenIs | src/daemon/session_manager.rs:147-160 | the quick reset leaves finished and unknown milestones alone and makes any other pending, unless its dependencies block it |
| FileClosures.SeedIs | src/daemon/task_source.rs:153-165 | seeding adds one pending milestone for each title that is not blank, trimmed, in order, with consecutive ids; the others change by recomputing only |
| GraphFile.FileHoldsPresent | src/workgraph.rs:160-187 | after any sequence of commits of the closures of the repository, on files read or unread, the ids in the file are exactly those obtained by following each commit |
| GraphFile.NoAddIsLost | src/workgraph.rs:160-187 | in every run, with any closures that drop nothing unasked, a milestone that a commit brought in stays in the file until a commit removes it or is made on an unread file, and without such a commit its id is handed out again only by one made on an unread file |
| GraphFile.AddIssues | src/workgraph.rs:201-224 | the id that a committed add returned is one that it brought in |
| GraphFile.LostIff | src/workgraph.rs:89-114 | a commit loses a milestone if and only if it removes it, having read the file, or was made on an unread file and neither found it there nor handed its id out again |
| GraphFile.UnreadFileLosesMilestone | src/workgraph.rs:178-184 | a concrete run in which the second add cannot read the file, hands out #1 again and overwrites the milestone of the first |
| LockedAdvances.FileStaysClosed | src/background.rs:448-560 | workers choose by reading without the lock and mark under it, others add, seed, reset and list, any call fails or crashes anywhere: in the file nothing is ever done before its dependencies, provided that the file can be read |
| LockedAdvances.OpKeepsClosedIff | src/workgraph.rs:164-187 | a closure leaves nothing done before its dependencies if and only if it passes its check in the graph it was given |
| LockedAdvances.RunStaysClosedIff | src/workgraph.rs:164-187 | over every run of the file protocol with any of the closures of the repository, from a consistent file that has the property, on files read or unread, the file has the property at every moment if and only if every committed closure passed its check in what it was run on |
| TopoSort.TopoSort | skills/engineer-job/run.wf.js:62-83 | for every list: returns an order exactly when all dependencies are known, no repeated id has dependencies and nothing starves, and then the ids as often as they are listed; on acyclic lists exactly when no repeated id has dependencies; if no repeated id is a dependency, then only acyclic lists are accepted and dependencies come first |
| TopoSort.BuildCounters | skills/engineer-job/run.wf.js:70-74 | in-degrees are dependency counts and the adjacency lists are the reversed graph, with multiplicity, items with the same id taken together |
| TopoSort.Relax | skills/engineer-job/run.wf.js:77-80 | after one round counters again say what is still to be received, and every node is queued as often as it is put out |
| TopoSort.StarvedMeansCycle | skills/engineer-job/run.wf.js:81 | nodes that wait for each other, receiving too little from outside, contain a cycle |
| TopoSort.Outcome | skills/engineer-job/run.wf.js:81 | when the queue is empty, as many ids have been put out as are listed if and only if no repeated id has dependencies and nothing starves |
| TopoSort.RepeatsMislead | skills/engineer-job/run.wf.js:62-83 | an acyclic list that is refused and a cyclic one that is accepted, both with a repeated id |
| DetectorsAgree.BothDetectors | skills/engineer-job/run.wf.js:62-83 | depth-first search and queue accept exactly the same graphs, and report unknown dependencies on the same graphs |
| MilestoneLoop.Workflow.CascadeSkip | skills/engineer-job/run.wf.js:638-648 | terminates on every graph, cyclic or not, and skips exactly the waiting milestones that reach the blocked one through waiting milestones |
| MilestoneLoop.Workflow.WorkOn | skills/engineer-job/run.wf.js:653-711 | attempt, degraded retry, inspection and fix end in exactly one record; blocked exactly when both attempts are |
| MilestoneLoop.WorkedMeans | skills/engineer-job/run.wf.js:653-711 | kept exactly if the attempt or the retry was accepted, degraded exactly if then the inspector objected, narrowed to the happy path exactly after a failed attempt, and built again at most once |
| MilestoneLoop.Workflow.RunMilestones | skills/engineer-job/run.wf.js:650-712 | work follows the order, on each milestone at most once, and every milestone ends kept or skipped, skipped for its own blocks if it was started and for a skipped dependency if not; in topological order a milestone is started if and only if no dependency is skipped, and skipped if and only if it stayed blocked or a dependency is skipped |
| MilestoneLoop.NothingSkippedUpstream | skills/engineer-job/run.wf.js:650-712 | everything upstream of a started milestone, however far, was kept |
| SessionTree.AppendKeepsOk | src/session.rs:164-169 | appending with the next id keeps a single-rooted tree with parents below children |
| SessionTree.NavigateKeepsOk | src/session.rs:194-201 | navigating keeps the tree valid, whether or not the id is known |
| SessionTree.AppendExtendsThread | src/session.rs:164-169 | the active thread grows by exactly the new message |
| SessionTree.AppendKeepsPath | src/session.rs:164-169 | every other path stays as it was |
| SessionTree.ThreadAscends | src/session.rs:149-161 | the active thread runs from the root to the leaf with strictly ascending ids |
| SessionTree.Session.ActiveThread | src/session.rs:149-161 | the walk along parent pointers ends, at a root or at an id that is not stored, and returns the path to the leaf |
| SessionTree.Session.AbandonedBranch | src/session.rs:206-237 | returns, leaf first, the ids of the walk from the leaf that the walk from the target does not visit |
| SessionTree.AbandonedIsBelowFork | src/session.rs:203-237 | that is exactly the part of the thread below the lowest common ancestor; an unknown target abandons the whole thread |
| SessionTree.NextMessageId | src/session.rs:352-356 | one above every id in use, 0 for an empty session |
| SessionTree.MigrateLoop | src/session.rs:402-421 | the migration loop chains each message to the one before it |
| SessionTree.MigrationRoundTrip | src/session.rs:398-421 | migrating a version-1 list gives a valid session whose active thread is that list |
| TreeView.RenderTree | src/session.rs:275-350 | the recursive walk emits the specified listing, with several roots, unknown parents or an unknown leaf too, and the active set found by walking up from the leaf |
| TreeView.ChildrenAscend | src/session.rs:285-292 | children are already in ascending order, so sorting them changes nothing |
| TreeViewLaws.ListingIsRight | src/session.rs:275-350 | every entry is listed exactly once, after its parent, indented by its depth, and marked exactly if it is on the active thread; the lines are in the order of their paths, so that what lies below an entry comes right behind it and siblings ascend by id |
| Messages.SanitizeUnpairedToolCalls | src/message.rs:67-87 | in place, assistants lose exactly the calls whose id no result answers |
| Messages.SanitizedLeaves | src/message.rs:67-87 | message by message: ids, roles and all items of other roles stay, and of the items of an assistant exactly the calls go that no result answers, the rest in order and unchanged |
| Messages.AnsweredMeans | src/message.rs:70-78 | an id counts as answered exactly when some result on the thread carries it |
| Wire.ToWireMessages | src/provider/openai.rs:81-130 | the loop produces the entries of each message in order, none for an assistant without text and calls |
| WireContents.SpeakersMatch | src/provider/openai.rs:81-130 | in order and one for one, the user entries carry the texts of the user messages, the system entries those of the system messages, and the assistant entries the texts and calls of the assistants that have any |
| WireContents.ResultsMatch | src/provider/openai.rs:81-130 | in order and one for one, the tool entries carry the answered id and the output of the results of the tool messages |
| WireContents.WireJoins | src/provider/openai.rs:81-130 | what comes earlier on the thread comes earlier in the request |
| WireContents.CallsAre | src/provider/openai.rs:89-102 | the calls of an entry are those of its message, in order, each with its id, name and arguments |
| WireContents.TextJoins | src/provider/openai.rs:132-141 | the text of a message distributes over the concatenation of items |
| WireContents.TextOfOne | src/provider/openai.rs:132-141 | a text item is its text and any other item is none: with the row above this fixes the text |
| Wire.ScanDecidesPairing | src/provider/openai.rs:81-130 | a left-to-right scan accepts exactly the requests in which each assistant entry is followed at once by one result per call, in order, with no other result |
| Wire.BlockEndsWithCalls | src/provider/openai.rs:81-130 | in a well-paired request no further result follows the block of an assistant's results |
| Discipline.DisciplinedRequestIsPaired | src/message.rs:59-87 | a disciplined thread, sanitised and lowered, is well paired |
| Discipline.SurvivingCalls | src/message.rs:67-87 | sanitising loses no result, and keeps a call exactly when the next message answers it |
| ReusedIds.PairedIffNoUnansweredIdAnswered | src/message.rs:59-87 | with call ids free to repeat, the request is well paired if and only if no unanswered call has the id of an answered one |
| ReusedIds.ReusedIdBreaksPairing | src/message.rs:67-87 | a concrete thread on which a reused id leaves a call without result |
| ReusedIds.OrderedIsInOrder | src/message.rs:59-87 | the order in which the agent writes, with call ids free to repeat, is exactly the order that theorem assumes |
| Compaction.WorkingSetLoop | src/compaction.rs:39-81 | the loop leaves the anchor and the last six messages alone, drops reasoning, elides results and drops emptied messages |
| WorkingSetContents.WorkingSetLeaves | src/compaction.rs:39-81 | exactly: the anchor and the last six messages stay as they are; of an older one all but the reasoning stays, in its order, with results elided; it goes exactly if it has nothing but reasoning; the messages keep their order |
| WorkingSetContents.TailStays | src/compaction.rs:52-58 | the last messages of the thread, up to six, are the last ones of the working set |
| WorkingSetContents.MarkerIs | src/compaction.rs:64-70 | an elided result keeps its id and its error flag, and its marker names the length of what was there in plain decimal |
| WorkingSetContents.LengthAdds | src/compaction.rs:64-70 | that length distributes over concatenation |
| WorkingSetContents.LengthOfOne | src/compaction.rs:64-70 | and is one to four bytes for a character, as in UTF-8 (section 3 of RFC 3629) |
| Compaction.ShrinkLeaves | src/compaction.rs:55-75 | of an old message exactly the texts and calls stay as they are, results stay without their bodies, and reasoning goes |
| Compaction.SummarySpan | src/compaction.rs:111-119 | the span is everything between the first and the last user message; there is none exactly if no two user messages have something between them |
| Compaction.ApplyTier2Loop | src/compaction.rs:310-333 | covered ids are dropped and the first of them is replaced by the summary |
| Compaction.CollectFilePaths | src/compaction.rs:161-180 | the nested loops collect read and modified paths into the given sets |
| Compaction.PathsOfSpan | src/compaction.rs:158-180 | a path is in a set afterwards if and only if it was before or a call of the span reads it, or writes it for the other set |
| Compaction.CollectInPieces | src/compaction.rs:158-180 | collecting a span in two pieces gives the same sets as collecting it at once |
| CompactionKeepsPairing.WorkingSetKeepsDiscipline | src/compaction.rs:50-81 | tier 1 keeps a thread disciplined |
| CompactionKeepsPairing.Tier2KeepsDiscipline | src/compaction.rs:306-333 | tier 2 on top of tier 1 keeps it disciplined, whatever the summary says |
| CompactionKeepsPairing.Tier2Exact | src/compaction.rs:306-333 | tier 2 leaves everything up to the anchor, one summary if tier 1 left anything of the span, and everything from the last user message on |
| CompactionKeepsPairing.SummaryIsLostIff | src/compaction.rs:306-333 | the summary is missing if and only if tier 1 ran and every message of the span lies before the recent tail and has only reasoning |
| CompactionKeepsPairing.SummaryIsLost | src/compaction.rs:306-333 | a concrete thread on which the whole span vanishes without a summary |
| RequestPairing.AskKeepsSound | src/agent.rs:1085-1112 | draining the queues, shaping and sending keeps the invariant, with fresh call ids or without, so the request just built comes from messages in order |
| RequestPairing.IterationKeepsSound | src/agent.rs:1079-1387 | one round of the turn loop, with any truncation, cancellation or nudge, keeps every thread of the tree in order, and disciplined if the call ids are fresh |
| RequestPairing.CommandKeepsSound | src/agent.rs:631-668 | every command keeps the invariant, with fresh call ids or without |
| RequestPairing.EveryRequestIsPaired | src/agent.rs:1043-1413 | in every run whose provider issues fresh call ids, every request sent is well paired |
| RequestPairing.EveryRequestIsPairedIff | src/agent.rs:1043-1413 | in every run, call ids repeating or not, the messages each request was made of are in order, and it is well paired if and only if no unanswered call of them has the id of an answered one |
| RequestBasis.RequestIsPairedIff | src/agent.rs:1085-1126 | in any sound state, whatever compaction, summary, prompt and trace note do: the request is well paired if and only if no unanswered call has the id of an answered one on the thread itself, or on the thread without the span if a summary stands for it |
| RequestBasis.RequestOfRunIsPairedIff | src/agent.rs:1043-1413 | the same for the request of every round of every run |
| RequestPairing.ReusingRunFails | src/agent.rs:1043-1413 | a concrete run of two turns with a cancelled call whose id is used again, and a request of it that is not well paired |
| TurnLaws.TurnIsLawful | src/agent.rs:1043-1413 | at most as many requests as the cap; the budget after k truncations is the configured one doubled k times up to the ceiling; only calls of the latest, untruncated reply are run; at most one nudge, only after enough exploration-only rounds; one end of turn |
| TurnLaws.TruncatedReplyRunsNothing | src/agent.rs:1252-1298 | a truncated reply runs none of its calls and adds one error result for each, in order |
| TurnLaws.BatchIsLawful | src/agent.rs:1328-1350 | every dispatch of a batch is of a call of the reply that ordered it |
| RoundContents.BatchIs | src/agent.rs:1328-1350 | each result carries the id of its own call and the output of its own outcome; the batch ends exactly at the first call that does not finish, and nothing after it is tried |
| RoundContents.CallsInOrder | src/agent.rs:1223-1240 | the calls run are those of the reply, in its order |
| RoundContents.ExploringMeans | src/agent.rs:1320-1324 | a reply counts as exploration exactly if it has calls and all are of the four tools that only look |
| RoundContents.SummaryIs | src/agent.rs:809-880 | a summary already made for the end of the span stays; any other carries the answer just given and was fed the span, from behind what an older cache covers and after what was fed to that, or from the start |
| RoundContents.ContextIs | src/agent.rs:809-910 | what is sent, in every case: the shaped thread, or its head, the summary text with the file list unless nothing of the span is left, and its end; then the trace note, except when a summary was wanted and could not be had |
| RoundContents.RequestIs | src/agent.rs:1085-1126 | all queued texts go on the thread, steering, notices and parent messages in this order and with their roles; the prompt comes first in the request and the working set of that thread after it |
| RoundContents.RoundWrites | src/agent.rs:1079-1387 | what a round puts on the thread after the request: the reply, then one error for each truncated call, or the first queue found not empty, or the results and the nudge; and the events it notes |
| RoundContents.TurnEndsIff | src/agent.rs:1079-1387 | a turn ends with a round if and only if it was cancelled, its request failed, its calls did not all finish, or its reply has no calls and nothing was queued meanwhile, or was cut off with the budget at the ceiling |
| RoundContents.TurnIs | src/agent.rs:1043-1413 | a turn starts with the message and the configured budget, takes the rounds of its script in order until one ends it, and reports the cap exactly if none did |
| RoundContents.CommandsLead | src/agent.rs:607-757 | a navigation ends the thread at a known id and starts it at the root, and changes nothing else; a clear starts over at id 0; a resume goes on one above the saved ids; none of them sends anything |
| SummaryCache.SummaryIsWhole | src/agent.rs:809-880 | with an agreeing cache, an incremental summary has been fed each message of the whole span exactly once and in order, and its file sets are those of the span |
| SummaryCache.SummaryIsWholeIff | src/agent.rs:809-880 | with a cache that is right for its own path, a summary is fed exactly the span if and only if there is no cache, or its covered message is on the thread, or it lies above the span; and then the cache is right again |
| SummaryCache.AskIsWholeIff | src/agent.rs:1085-1126 | the same for the request of one round, after the queues have been drained |
| SummaryCache.RunIsWholeIff | src/agent.rs:631-668 | over every run of turns, navigations, clears and resumes of valid sessions, all summaries are fed exactly their spans if and only if that condition holds whenever one is made |
| SummaryCache.NavigationKeepsCacheIff | src/agent.rs:749-757 | a navigation leaves the cache as it is, right for the path to its covered message, and in agreement with the thread if and only if that message is on the new thread |
| SummaryCache.StaleCacheLeaks | src/agent.rs:829-851 | if the covered message is off the thread and below the end of the span, the next summary is fed a message that is not on the thread |
| SummaryCache.BranchedSummaryLeaks | src/agent.rs:749-757 | a concrete run from the empty session, of five turns and a navigation, in which the last summary is fed two abandoned messages |
| AgentLoops.AgentLoop.ContextWorkingSet | src/agent.rs:809-910 | the method sends and caches exactly what the specification says, in all cases of the cache |
| AgentLoops.AgentLoop.Request | src/agent.rs:1085-1126 | draining, shaping, sanitising in place and lowering build the specified request |
| AgentLoops.AgentLoop.DispatchTools | src/agent.rs:1325-1350 | calls run in order and stop at the first cancelled one, which gets no result |
| AgentLoops.AgentLoop.Iterate | src/agent.rs:1079-1387 | one round of the loop, with all its exits, changes the object as specified |
| AgentLoops.AgentLoop.ProcessTurn | src/agent.rs:1043-1413 | a whole turn changes the object as specified and ends with one notice that tells whether the cap was hit |
| AgentLoops.AgentLoop.HandleNavigate | src/agent.rs:700-757 | the abandoned ids are those of the old walk that the walk from the target does not visit; the leaf moves; the cache stays |
| AgentLoops.AgentLoop.ResumeLatest | src/agent.rs:607-628 | the saved session replaces the current one, ids go on above it, the cache is dropped; without a file that can be loaded nothing changes |
| AgentLoops.AgentLoop.Run | src/agent.rs:631-668 | serving any sequence of commands leaves the state that the state machine computes |
| Calendar.CivilCountsDays | src/bg_ledger.rs:128-140 | for every day number the closed form gives the date reached by counting days with the Gregorian next-day rule |
| Calendar.FormatIsRight | src/bg_ledger.rs:128-145 | for every second the date is the counted one, all fields are in range and the time of day is what is left over |
| Calendar.FormatAscends | src/bg_ledger.rs:128-145 | later seconds give later stamps, so no two seconds share one |
| CronExpr.ValidField | src/tool/cron.rs:97-119 | accepts exactly the fields all of whose parts can be read, have positive steps and lie in range |
| CronExpr.IsValidCron | src/tool/cron.rs:86-95 | accepts exactly five fields that are valid for minute, hour, day, month and weekday |
| CronExpr.FieldMatches | src/tool/cron.rs:134-162 | on an accepted field it divides by no zero, and the value matches if and only if it lies in the union of the sets its parts denote |
| CronExpr.CronMatches | src/tool/cron.rs:123-132 | an accepted expression matches exactly when all five fields do |
| CronExpr.StarStepIsUsualIff | src/tool/cron.rs:154-156 | a stepped star counts from the lowest value, as cron does, if and only if the step divides that value |
| CronExpr.SteppedNumber | src/tool/cron.rs:154-156 | a plain number with a step matches that number exactly if the step divides it, and nothing else |
| CronExpr.SteppedNumberIsUsualIff | src/tool/cron.rs:154-156 | within the bounds of a field it matches what cron matches if and only if the step divides the number and the next value is out of bounds |
| CronExpr.NeverFires | src/tool/cron.rs:86-162 | a concrete expression that is accepted and matches no instant |
| CronLaws.PlainExpression | src/tool/cron.rs:86-162 | five plain numbers, written out, are accepted exactly if they are a minute, an hour, a day, a month and a weekday, and then match exactly those values |
| CronLaws.PartsRead | src/tool/cron.rs:97-162 | how stars, numbers, spans and steps are read, whatever numbers they are made of, and what cannot be read |
| Strings.SplitIs | src/tool/cron.rs:97-99 | pieces hold no separator and there is one between any two, which fixes the splitting at commas |
| Strings.WordsAre | src/tool/cron.rs:86-88 | words hold no white space and are separated by it, which fixes the splitting of an expression |
| Strings.IntsRead | src/tool/cron.rs:97-119 | an optional sign and digits are read as their value if it is a 32-bit integer |
| Strings.OthersDoNotRead | src/tool/cron.rs:97-119 | nothing else is read as a number |
| CronStores.CronStore.Create | src/tool/cron.rs:30-41 | an entry with the next id is added exactly for a valid expression |
| CronStores.CronStore.Delete | src/tool/cron.rs:42-46 | exactly the entries with that id go; true if there was one |
| CronStores.CronStore.PollDue | src/tool/cron.rs:54-79 | the prompts of exactly the due entries are returned, those are marked, and fired one-shots are removed |
| CronLaws.PromptsAre | src/tool/cron.rs:54-79 | a poll returns the prompts of exactly the entries that match and have not fired within the last minute, in the order of the store |
| CronLaws.PollLeaves | src/tool/cron.rs:54-79 | it takes exactly the one-shots among them out of the store, notes the instant with the others, and changes neither the rest nor the order |
| CronLaws.DeleteLeaves | src/tool/cron.rs:42-46 | a deletion takes exactly the entries with that id out and keeps the order of the others |
| CronStores.RecentlyMeansWithinAMinute | src/tool/cron.rs:63-66 | the whole-seconds test means less than a minute after the last fire, or any time before it |
| CronRuns.DueIn | src/tool/cron.rs:60-69 | an entry fires if and only if it matches and did not fire recently |
| CronRuns.FiresAreSpaced | src/tool/cron.rs:54-79 | over every run, with a clock going either way, two fires of one entry are at least 60 seconds apart and a one-shot fires at most once |
| Supervision.Supervisor.ResetIfManifestChanged | src/supervisor_state.rs:64-84 | a changed modification time wipes the record; reports a reset only for a known service |
| Supervision.Supervisor.StartAll | src/capability.rs:135-166 | every manifest found is reset, skipped or started as specified, and the state file is written last |
| Supervision.Supervisor.Supervise | src/capability.rs:180-203 | each exited service is marked failed, recorded and saved once |
| SupervisorSteps.StartIs | src/capability.rs:135-166 | exactly: of the manifests found, in order and possibly of equal names, those start that can be spawned and have no spent record for the version found; changed ones get a fresh record; the new life has the services started and no others; the records are saved if they can be |
| SupervisorSteps.TickIs | src/capability.rs:180-203 | exactly: those services fail that some look finds up and without their child, each once however often it is looked at; one more crash is on their record, and they are given up if the budget is reached; all others keep service, record and crashes |
| SupervisorRuns.BudgetIsKept | src/supervisor_state.rs:87-102 | over every run, with failing reads and writes, no counter exceeds the budget, a service is given up exactly when its counter is at the budget, and each daemon life records at most one crash of it |
| SupervisorRuns.NoSpawnAfterBudget | src/capability.rs:135-166 | once the budget is spent and saved, the service is not started by any later life that can read the state file while its manifest is not modified |
| SupervisorRuns.SpentIsStartedAgainIff | src/capability.rs:135-166 | a start of the daemon starts a spent service again if and only if a manifest of it can be spawned once the file could not be read or its modification time has changed |
| SupervisorRuns.SpawnsInBudgetIff | src/capability.rs:135-203 | over every run, whatever reads and writes of the state file fail: no service is ever started after its crashes have used up the budget of its manifest, if and only if no start comes across such a manifest, unchanged, that what it reads from the state file does not forbid |
| SupervisorRuns.BudgetIsOverrun | src/capability.rs:135-203 | two concrete runs that overrun a budget of one crash: the crash is not saved, or the state file is not read |
| SupervisorRuns.SpawnsOnlyBelowBudget | src/capability.rs:135-203 | with a working state file the counters are the crashes since the manifests last changed, and every start happens below the budget |
| EventBuses.EventBus.Register | src/daemon/bus.rs:33-41 | the id is new and above all earlier ones; the channel is added under it |
| EventBuses.EventBus.Broadcast | src/daemon/bus.rs:49-53 | every subscriber with a reader gets the event once, those without are dropped, nothing else changes |
| Connections.GuardJoinsClosedChannels | src/daemon/socket.rs:28-41 | in every interleaving subscription ids are unique, and a guard that waits for its writer has left no sender of the channel anywhere |
| Connections.BroadcastReaches | src/daemon/bus.rs:49-53 | a broadcast puts the event once into the channel of every subscriber with a reader, drops the subscriptions without one, and touches nothing else |
| Connections.WaitingOnlyShrinks | src/daemon/socket.rs:28-41 | while a guard waits no thread can give its writer more to do, each writer step brings the end nearer, and the writer always has a step to take, provided that its socket writes return |
| Connections.JoinReturns | src/daemon/socket.rs:36-40 | left alone, the writer writes what is queued and ends, and then the join returns |
| Connections.WrittenInOrder | src/daemon/socket.rs:108-119 | a writer writes the events of its channel in the order sent, skipping none, and all of them unless a write fails |

## Left out

- Input and output: provider calls, HTTP, sockets, subprocesses, JSON and the file system are parameters or abstract cells; `GraphFile` keeps the lock, the temporary file and the atomic rename.
- Token counts: whether to compact is an arbitrary boolean, so nothing is claimed about sizes; an elision marker can be longer than a short result.
- The tier-2 path inside `working_set` itself: the agent always calls it with that path switched off.
- Texts: error messages, notices, prompts, the rendered file list, `skip_reason` and the formatting of date stamps and tree lines are left as fields or strings; the nudge is kept without the number of steps in it.
- Retries inside `complete_retrying`, `last_error`, trace and replay records, token counts of a session and `meta` marks: they do not influence the modelled state.
- Integer widths: message, milestone and subscription ids are unbounded where the code has 64 bits; `saturating_mul` of the token budget equals the unbounded product because it is cut at the ceiling next.
- RequestPairing.EveryRequestIsPaired: assumes that the provider gives calls ids that are new to the thread; `EveryRequestIsPairedIff` and `RequestBasis` do not. All assume that the provider sends no results itself and that the agent is not a fork, which copies only the last 20 messages of its parent.
- SupervisorRuns.SpawnsOnlyBelowBudget: assumes that the state file can be read and written; `BudgetIsKept` and `SpawnsInBudgetIff` do not, and `NoSpawnAfterBudget` that the spent budget was saved and later starts can read it.
- LockedAdvances.FileStaysClosed: assumes that every call can read the file, and leaves out plan failures, removals and status changes other than completions, which can break the property; `RunStaysClosedIff` has none of these restrictions.
- Connections.WaitingOnlyShrinks: a socket write that blocks because the client has stopped reading blocks the writer, and with it the guard that joins it; writes are assumed to return, with or without success.
- AgentLoops.AgentLoop.ResumeLatest: a file that can be loaded is assumed to hold ids that ascend in storage and parents with lower ids than their children, which need not be stored; so do `ActiveThread`, `AbandonedBranch`, `RenderTree` and `Run`. A file with a cycle of parents would make the walk to the root endless; other storage orders do not arise from the code.
- MilestoneLoop.Workflow.RunMilestones: the order is a parameter without repetition; the workflow falls back to the listed order when sorting throws, which the first clauses cover. A milestone listed twice would be worked on twice.
- DetectorsAgree.BothDetectors: assumes unique ids, as `add` hands them out; for lists with repeated ids `TopoSort.TopoSort` says what the queue algorithm does.
- `WorkGraph` changes a node of its list by replacing the list; `HashMap` iteration orders are parameters.
- The outer cycle of `run_background_cfg`, quality reviews and rework: they decide when to call the modelled advance loop.
- Trust, permission and sandbox gates, configuration, the REPL and web client, forked sub-agents and session targeting.
