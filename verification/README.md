# Verified models of the Datus agent

Datus is a data-engineering agent: it turns a question into a workflow of nodes, runs that
workflow, serves its tools over MCP, keeps metadata in sync in the background, and checks itself
with a set of CI scripts. This project models the parts of it that carry state or algebra and
proves what they keep. `dafny verify dfyconfig.toml` checks everything.

| module | models |
|---|---|
| `TokenStorage`, `OAuthManager` | the token file and the lock-protected refresh: sequential objects, and a step system of any number of threads that load, wait, recheck, post and save over one lock and one file |
| `BackgroundSync` | the single-slot scheduler: schedule, cancel and shutdown calls of any number of threads, futures that finish at any time, done-callbacks that take the same lock |
| `ContextCache`, `Router` | the `OrderedDict` cache of tool contexts, its keys, and the request paths that lead to them |
| `Workflows`, `WorkflowRunner`, `Checkpoint`, `Plan` | workflow edits, the two execution loops, saving and resuming, and the compilation of a configured plan |
| `TestTargets`, `ImpactTable`, `Junit` | selection of unit tests for a change, its prefix table, and the merge of JUnit reports |
| `AuditChecker` | the linter rule for assertions on some branches only, against an operational meaning of statements |
| `DeepMerge` | the recursive merge of configuration trees |
| `CoverageMarker`, `CoverageSync` | the issue marker with the search of its regular expression, and the reconciler of tracking issues |
| `TableMatch` | the comparison of a predicted table with a gold table |
| `Wrappers`, `Sequences`, `Text`, `Loops` | options, list and string operations of the source language, and the rules for bounded loops as iterated functions |

How the models are built:

- What a node does is three arbitrary functions (`WorkflowRunner.Behaviour`): its execution, which
  is one function for `execute` and another for `execute_stream`, `update_context` with any list of
  edits of the node list, and `setup_input`, which may report, raise or return nothing. They see
  the node and what `Sight` holds of the workflow: the shared context, the reflection round, the
  current position, and the state of the reasoning nodes. Every theorem about runs holds for all
  of them.
- A node has the input that a file keeps, whatever else its setup prepared (`held`: schemas found
  in the context, the workflow of a parallel node, tools), and the class it was made as. The
  context has fields with a declared type and entries without one, which are objects or mappings.
- A protocol is a state, an `Enabled` predicate and a `Do` function for each atomic step; theorems
  quantify over every feasible schedule from an initial state. A future finishing is one step,
  the token file is one atomic cell, and time is a real number that does not decrease.
- Objects that the source updates in place are classes; their methods are proved equal to the
  specification functions that the theorems are about.
- Clocks, disks, servers, file systems and number formats are parameters, so that failures
  (a lost answer, an unreadable file, a full disk, a stopped event loop, a raising call, a text
  that is no number) are part of the model. A configuration that loading may or may not have, and
  what its classes accept, is one too.

## Where the code differs from what it says

Each of these is a lemma with a witness or one side of an if-and-only-if.

- A refresh whose answer is lost or whose save fails leaves the old refresh token in the file
  (`OAuthManager.FailedSaveRepeatsAGeneration`, `OAuthManager.StoredTokenIsTheLastIssued`). A check
  under the lock that cannot read the file counts as expired, so that a record another thread just
  renewed is refreshed again (`OAuthManager.FailedCheckPostsAFreshRecord`).
- `schedule` reads the shutdown flag outside its lock, so that a sync can start after `shutdown`
  returned (`BackgroundSync.ShutdownCanLeakASync`).
- Without a mount prefix in front, the paths of datasources named `sse` and `mcp` lose their first
  segment (`Router.StrippedRoundTripIff`); cache keys are ambiguous as soon as a part has a colon
  (`ContextCache.KeyIsUnambiguousIffColonFree`).
- `resume_workflow` loads the file without a configuration, and the constructor of a workflow sets
  up database tools that need one: it raises for every checkpoint (`Checkpoint.LoadsIff`).
- Loaded with a configuration, a checkpoint still lacks the reflection round, what a node held
  besides its input, typed inputs of most node types, results of types without a class of their
  own, and every object among the context's undeclared entries; going on from it is faithful
  exactly when none of that matters (`Checkpoint.FaithfulIffSurvives`). The results of parallel
  children are such entries: in a plan with a parallel node, a date parser, a selection and an SQL
  execution, saved behind the parallel node, the loaded selection finds no SQL and the run stops in
  front of the SQL execution (`Checkpoint.LoadedSelectionFindsNoSql`). The checkpoint of a completed
  workflow runs its last node again (`Checkpoint.CompletedRunsAgain`).
- `run` and `run_stream` do the same exactly when on every pass both executions leave the node
  alike, no partial failure is met, the evaluations agree and the setup of the next node reports
  (`WorkflowRunner.RunsAgreeIff`). The stream of the date parser leaves no result, so that
  `run_stream` breaks where `run` goes on (`WorkflowRunner.StreamWithoutResult`,
  `WorkflowRunner.DateParserBreaksTheStream`). The setup of a `hitl` node returns nothing, so that
  in front of it `run` raises, without finalizing, where `run_stream` breaks and finalizes
  (`WorkflowRunner.HumanInTheLoopEscapes`). A workflow that cannot be saved makes `run` raise, and
  `run_stream` report (`WorkflowRunner.OutcomesAgreeIff`). `max_steps` 0 means 20 in `run` and 0 in
  `run_stream` (`WorkflowRunner.ZeroStepsAgreeIff`).
- The comment that a reflect node always completes is not what `complete` does: the node fails
  when its result does (`WorkflowRunner.ReflectFailsWithItsResult`). The branch of `run` for partly
  failed parallel nodes is dead unless an exception has an empty message, because `fail` replaces
  the result (`WorkflowRunner.NoPartialFailure`).
- A plan without steps cannot start (`WorkflowRunner.PreparesIff`). `gen_job` and `feedback` nodes
  ignore the id they are given, so that two of a kind share one (`Plan.GeneratedIsConsistentIff`).
- Merging JUnit files loses the counts and failures of a file whose root is neither `testsuite`
  nor `testsuites` (`Junit.MergePreservesIff`).
- A chain whose only assertion stands behind a `return` counts as verifying and is flagged
  (`AuditChecker.FlaggedWithoutAnyCheck`). A comment that silences one rule of a line silences all
  of them (`AuditChecker.NoqaNamesNoRule`).
- `deep_merge` is not associative where a leaf stands between two mappings
  (`DeepMerge.MergeAssociatesIff`).
- A second open issue for a flow, the issue of another flow that reads back as this one's, or an id
  with white space or `>` keep the reconciler from converging, and, while no call fails, nothing else
  does (`CoverageSync.RightNumberIff`, `CoverageSync.DuplicateStaysOpen`,
  `CoverageSync.InvalidIdNeverSettles`).
- Columns that match place by place may not match with the order ignored, because numbers are
  sorted by their text (`TableMatch.SortingPartsNumbers`): it follows exactly under sort keys that
  leave no two matching pairs crossed (`TableMatch.SortingKeepsMatchesIff`).

## Model

| member | source | states |
|---|---|---|
| `TokenStorage.ExpiryIsMonotone` | datus/auth/token_storage.py:99-127 | a record that needs a refresh still needs it at any later time |
| `TokenStorage.LifetimeAfterSave` | datus/auth/token_storage.py:29-127 | a saved reply is usable exactly until the server's own timestamp less the buffer, or its lifetime less the buffer, or for the fixed interval after its last refresh, or never; its tokens are kept |
| `TokenStorage.Store.Load` | datus/auth/token_storage.py:70-83 | the record in the file, or none when the file cannot be read |
| `TokenStorage.Store.Save` | datus/auth/token_storage.py:29-68 | the file becomes the completed record, or stays as it was when the disk fails |
| `TokenStorage.Store.Clear` | datus/auth/token_storage.py:85-92 | the file is gone, or stays when it cannot be removed |
| `OAuthManager.Manager.RefreshTokensUnlocked` | datus/auth/oauth_manager.py:177-215 | which of the four results it is; a granted and saved reply is what the caller gets and the file holds, every field of it, with the old refresh token only where it has none |
| `OAuthManager.Manager.GetAccessToken` | datus/auth/oauth_manager.py:145-164 | no token without a stored one, the stored one untouched while it is usable, else the access token of the granted reply, which the file then holds, or the error of the step that failed, whichever of the three loads can read the file |
| `OAuthManager.Manager.Logout` | datus/auth/oauth_manager.py:222-226 | the stored record is gone |
| `OAuthManager.RunKeepsInv` | datus/auth/oauth_manager.py:145-226 | every feasible schedule of any calls by any threads, with any loads failing, keeps lock ownership, fresh snapshots, expiry under the lock, token currency and the refresh history |
| `OAuthManager.RefreshesPresentDistinctGenerations` | datus/auth/oauth_manager.py:166-215 | in every schedule, refreshes that returned presented strictly increasing, hence distinct, generations of the file |
| `OAuthManager.HonouredRequestsAreTheRefreshes` | datus/auth/oauth_manager.py:177-215 | between refreshes the requests the server honoured are exactly the refreshes that returned if and only if no answer was lost and no save failed |
| `OAuthManager.StoredTokenIsTheLastIssued` | datus/auth/oauth_manager.py:207-215 | the stored refresh token is the last one the server issued (section 6 of RFC 6749) if and only if that one reached the file, as it does in runs that lose nothing |
| `OAuthManager.PostsPresentTheStoredRecord` | datus/auth/oauth_manager.py:159-190 | whoever posts holds the lock and presents the record in the file at that moment; a `get_access_token` whose check under the lock could read the file posts only for a record that is expired |
| `OAuthManager.ReturnedTokenIsInTheFile` | datus/auth/oauth_manager.py:145-164 | in every schedule a thread that gets an access token gets the one in the file at that moment: that of the reply that just arrived and was saved by this call, or of a record that has not expired |
| `OAuthManager.RefreshedRecordIsTheReply` | datus/auth/oauth_manager.py:207-215 | in every schedule a refresh that returns a record returns the reply that just arrived, with the presented refresh token only where it has none, and the file holds its tokens |
| `OAuthManager.HonouredIsRecorded` | datus/auth/oauth_manager.py:183-206 | what a refused, a lost and a granted request change on the side of the server and in the history |
| `OAuthManager.WaiterSharesTheRenewal` | datus/auth/oauth_manager.py:158-162 | a `get_access_token` that waited for another thread's refresh returns the token that one fetched, with one request posted for both |
| `OAuthManager.NothingRestoresTokensAfterLogout` | datus/auth/oauth_manager.py:222-226 | after a logout removed the file no refresh in flight or to come brings tokens back |
| `OAuthManager.UninterruptedRefresh` | datus/auth/oauth_manager.py:166-215 | the steps of an undisturbed refresh reach the file and result of the sequential object |
| `OAuthManager.UninterruptedGet` | datus/auth/oauth_manager.py:145-164 | the steps of an undisturbed `get_access_token` reach the file and result of the sequential object |
| `OAuthManager.RenewedTokenIsServed` | datus/auth/oauth_manager.py:145-215 | on an expired record a call returns the token of the granted reply, and a second one at that time returns it again and leaves the file alone |
| `OAuthManager.FailedSaveRepeatsAGeneration` | datus/auth/oauth_manager.py:207-215 | a failed save lets the next refresh present the same generation and be honoured again |
| `OAuthManager.FailedCheckPostsAFreshRecord` | datus/auth/oauth_manager.py:158-162 | after another thread renewed the record, a `get_access_token` whose check under the lock cannot read the file posts for the renewed record |
| `BackgroundSync.RunKeepsInv` | datus/cli/background_sync.py:55-125 | every schedule of requests, cancels, shutdowns, finishes and callbacks keeps the slot invariant |
| `BackgroundSync.AtMostOneLiveFuture` | datus/cli/background_sync.py:55-104 | never two live futures; with the lock free, `is_running` holds exactly when there is one |
| `BackgroundSync.LastAcceptedRequestIsSynced` | datus/cli/background_sync.py:75-102 | a live slot syncs the datasource of the last accepted request, coalesced ones included |
| `BackgroundSync.CoalescesIff` | datus/cli/background_sync.py:75-82 | a request in the lock is coalesced exactly if some live future syncs its datasource, and replaces what there is exactly if none does |
| `BackgroundSync.ScheduleEndsOnlyOthers` | datus/cli/background_sync.py:75-96 | no step of a `schedule` call ends a live future for its own datasource, and vacating the slot ends every other live one |
| `BackgroundSync.LateHookClears` | datus/cli/background_sync.py:98-104 | a future that finished before its callback was added leaves the slot as it is added |
| `BackgroundSync.LiveFutureKeepsItsSlot` | datus/cli/background_sync.py:214-219 | no step, late callbacks of replaced futures included, clears a slot whose future stays live |
| `BackgroundSync.QuietSchedulerHasEmptySlot` | datus/cli/background_sync.py:98-104 | when every callback has run and nothing is live the slot is empty |
| `BackgroundSync.QuiescentForever` | datus/cli/background_sync.py:118-125 | once shut down with no request on its way and nothing live, nothing ever runs again |
| `BackgroundSync.ShutdownIsFinalIffNoRequestSlippedThrough` | datus/cli/background_sync.py:62-63 | after shutdown a sync can still be live in some continuation exactly when one is live now or a request already passed the flag check |
| `BackgroundSync.ShutdownCanLeakASync` | datus/cli/background_sync.py:118-125 | a concrete schedule in which a sync starts after shutdown and its cancel |
| `BackgroundSync.UndisturbedSchedule` | datus/cli/background_sync.py:55-104 | the steps of one undisturbed `schedule` call reach the state the sequential method computes |
| `BackgroundSync.SameDatasourceIsLeftAlone` | datus/cli/background_sync.py:62-82 | the state after a `schedule` for the datasource that is being synced, after a shutdown or without a datasource: slot, datasource and futures as they were |
| `BackgroundSync.OtherSyncIsReplaced` | datus/cli/background_sync.py:83-104 | any other request ends what is live and puts a new future for its datasource into the slot, or nothing if the loop is not running; all other futures as they were |
| `BackgroundSync.UndisturbedCancel` | datus/cli/background_sync.py:106-111 | the steps of one undisturbed `cancel` and its callback leave nothing live, in the state the method computes |
| `BackgroundSync.ScheduledKeepsInv` | datus/cli/background_sync.py:55-104 | the state an undisturbed `schedule` call computes keeps the slot invariant |
| `BackgroundSync.Manager.Schedule` | datus/cli/background_sync.py:55-104 | coalesce, replace, give up or install: the whole new state |
| `BackgroundSync.Manager.Cancel` | datus/cli/background_sync.py:106-111 | nothing is live afterwards, the callback of the cancelled future has run, and the slot invariant holds |
| `BackgroundSync.Manager.IsRunning` | datus/cli/background_sync.py:113-116 | true exactly when some future is live |
| `BackgroundSync.Manager.Shutdown` | datus/cli/background_sync.py:118-125 | the state of a cancel with the flag set: nothing is live, nothing will be, and the slot invariant holds |
| `BackgroundSync.Manager.OnDone` | datus/cli/background_sync.py:214-219 | the slot is cleared only if it holds this very future, and the slot invariant holds |
| `ContextCache.RecencyIsLastUseOrder` | datus/mcp_server.py:244-284 | the reference order lists each served key once, sorted by last use |
| `ContextCache.CacheHoldsTheMostRecent` | datus/mcp_server.py:244-284 | after any calls the cache holds exactly the `max_size` most recently served distinct keys in order of last use; a bound that is not positive keeps all |
| `ContextCache.OrderDistinct` | datus/mcp_server.py:264-284 | keys are distinct and never more than the bound |
| `ContextCache.SmallerCacheIsContained` | datus/mcp_server.py:264-284 | on the same calls a smaller positive bound holds a subset of what a larger or absent one holds, in the same order |
| `ContextCache.KeysAgreeIffRequestsAgree` | datus/mcp_server.py:237-242 | for colon-free datasources two requests share a key exactly when datasource and effective subagent agree |
| `ContextCache.KeyIsUnambiguousIffColonFree` | datus/mcp_server.py:237-242 | a key belongs to one request only exactly when neither part has a colon |
| `ContextCache.ToolContext.Close` | datus/mcp_server.py:168-179 | a closed context has released its tools |
| `ContextCache.Manager.GetOrCreateContext` | datus/mcp_server.py:244-284 | keeps the order that the reference predicts and every created context in exactly one place, cached and open with the tools it was created with, or closed without any; a hit returns the cached object with its tools, a miss an open one with exactly the created tools, a failed creation changes no context |
| `ContextCache.Manager.Insert` | datus/mcp_server.py:264-284 | a new open context with exactly the given tools takes the newest place, after the oldest left if the cache was full |
| `ContextCache.Manager.EvictOldest` | datus/mcp_server.py:272-281 | the least recently used context is removed, closed and has no tools; all others keep theirs |
| `ContextCache.Manager.CloseAll` | datus/mcp_server.py:319-327 | every context ever created is closed and without tools, and the cache is empty |
| `Router.ParseRequest` | datus/mcp_server.py:596-635 | the loop over the mount prefixes computes datasource and subpath of the specification, the query its subagent, and none of them without a datasource |
| `Router.MountedRoundTrip` | datus/mcp_server.py:605-635 | with the mount prefix left in the path every printable request reads back |
| `Router.StrippedRoundTripIff` | datus/mcp_server.py:605-635 | with the prefix stripped a request reads back exactly unless its datasource is `sse` or `mcp` and segments follow |
| `Router.QueryRoundTrip` | datus/mcp_server.py:628-633 | the subagent is the first non-empty value that a client encoded for it, whatever other parameters it sent |
| `Router.RequestRoundTrip` | datus/mcp_server.py:596-635 | a request that a client prints, mount prefix, datasource, segments and encoded parameters, is read as that datasource, the first usable subagent and that subpath |
| `Router.SlashesAround` | datus/mcp_server.py:611-613 | slashes around a path make no difference, and a path of slashes addresses no datasource |
| `Workflows.AddIsConsistentIffFresh` | datus/agent/workflow.py:67-81 | adding keeps node list and node map in step exactly when the id is new |
| `Workflows.RemoveIsConsistent` | datus/agent/workflow.py:96-122 | removing takes exactly that id out of both |
| `Workflows.RemoveClearsDependencies` | datus/agent/workflow.py:113-117 | nobody depends on the removed node exactly when no list named it twice; all other dependencies survive |
| `Workflows.MovePermutes` | datus/agent/workflow.py:124-145 | an accepted move puts the node where asked, permutes the list and keeps the order of the others |
| `Workflows.AddPlaces` | datus/agent/workflow.py:67-81 | an added node stands where it was asked, or last, the others keep their order, and parallel and subworkflow nodes know their workflow |
| `Workflows.RemoveCloses` | datus/agent/workflow.py:96-122 | the nodes behind a removed one move up by one, and nothing else of the remaining nodes but their dependencies changes |
| `Workflows.MoveChangesTheList` | datus/agent/workflow.py:124-145 | a move of a node of the list to a place in it changes the list only, any other nothing |
| `Workflows.ModifyReplaces` | datus/agent/workflow.py:288-302 | a modification replaces what it names and nothing else |
| `Workflows.EditsKeepPast` | datus/agent/workflow.py:67-145 | any edits behind the current position, modifications included, leave the list up to it, the index and the status alone |
| `Workflows.FreshEditsStayConsistent` | datus/agent/workflow.py:67-145 | any sequence of fresh adds, of removes, moves and modifications keeps the list duplicate-free and equal to the keys of the map |
| `Workflows.Workflow.AddNode` | datus/agent/workflow.py:67-81 | the whole new state, for positions in and out of range |
| `Workflows.Workflow.RemoveNode` | datus/agent/workflow.py:96-122 | the whole new state, dependency lists included, and whether the node was there |
| `Workflows.Workflow.MoveNode` | datus/agent/workflow.py:124-145 | the whole new state and whether the move was accepted |
| `Workflows.Workflow.ModifyNode` | datus/agent/workflow.py:288-302 | the named fields of the node replaced, in the whole new state |
| `Workflows.Workflow.ApplyEdits` | datus/agent/workflow.py:255-302 | the add, remove, move and modify actions of `adjust_nodes` one after the other |
| `Workflows.Workflow.AdvanceToNextNode` | datus/agent/workflow.py:197-210 | the next position, or completion on the last one |
| `WorkflowRunner.Runner.Execute` | datus/agent/workflow_runner.py:184-239 | the loop with its early exits, and with the exception that escapes from `run`, reaches the state and lists of executed and evaluated nodes of the iterated step |
| `WorkflowRunner.Runner.RunCurrentNode` | datus/agent/workflow_runner.py:190-230 | one pass of the loop body, its breaks and its escaping exception included |
| `WorkflowRunner.Runner.RunLoop` | datus/agent/workflow_runner.py:188-231 | the loop with its budget, breaks and escaping exception equals the iterated step |
| `WorkflowRunner.Runner.PrepareFirstNode` | datus/agent/workflow_runner.py:100-106 | the begin node is completed and the first real node prepared, only at index 0 |
| `WorkflowRunner.Runner.EvaluateResult` | datus/agent/evaluate.py:46-74 | update the context, edits included, then prepare the next node while the index still points at the current one; a success, a failure or nothing is reported |
| `WorkflowRunner.PreparesIff` | datus/agent/workflow_runner.py:100-106 | a fresh run can start exactly when a node follows the begin node and its setup does not raise |
| `WorkflowRunner.RunTracks` | datus/agent/workflow_runner.py:190-230 | whatever nodes do and edit behind themselves, the executed ids are a contiguous stretch of the final node list from where the run started |
| `WorkflowRunner.RunLength` | datus/agent/workflow_runner.py:188-231 | at most `max_steps` nodes are executed, and exactly that many unless the run ended by itself |
| `WorkflowRunner.FreshRun` | datus/agent/workflow_runner.py:184-239 | a fresh run executes the final list from position 1 on, each node once and at most `max_steps` (20 for 0 in `run`), exactly that many unless it ended by itself; it is completed exactly when the last position ran and was not a break |
| `WorkflowRunner.FreshStart` | datus/agent/workflow_runner.py:100-106 | what a fresh run starts from: the begin node completed, the next one current and with what its setup prepared |
| `WorkflowRunner.FailedExecutionEndsTheRun` | datus/agent/node/node.py:404-429 | a node whose execution raises, leaves no result or leaves an unsuccessful one is failed and ends the run without being evaluated, in both modes, but for a partly failed parallel node in `run` |
| `WorkflowRunner.SuccessfulExecutionIsEvaluated` | datus/agent/node/node.py:404-452 | a node whose execution leaves a successful result is completed with that result and evaluated |
| `WorkflowRunner.PartialFailureIsEvaluated` | datus/agent/workflow_runner.py:196-218 | the exception: the failed parallel node is evaluated with the result it has |
| `WorkflowRunner.EvaluationPrepares` | datus/agent/evaluate.py:46-74 | what the context, the round and the next node are after an evaluation, and that the run goes on exactly when the setup reports success, fails the node when it reports failure or raises, and leaves it when it says nothing |
| `WorkflowRunner.RaisingUpdateEndsTheRun` | datus/agent/evaluate.py:72-74 | an `update_context` that raises fails the node and ends the run with its edits made |
| `WorkflowRunner.CompletedRunWentWell` | datus/agent/workflow_runner.py:184-239 | in a run that completes the workflow every execution was successful or the exception |
| `WorkflowRunner.ModesAgreeIff` | datus/agent/workflow_runner.py:283-345 | the two loops are in the same state after every number of passes if and only if on every pass both executions leave the node alike, no parallel node failed with a successful child, the evaluations agree, and the direct one gives a report |
| `WorkflowRunner.RunsAgreeIff` | datus/agent/workflow_runner.py:184-345 | `run` and `run_stream` do the same for every non-zero `max_steps` exactly when every pass of the stream agrees |
| `WorkflowRunner.ZeroStepsAgreeIff` | datus/agent/workflow_runner.py:184-345 | with `max_steps` 0 they do the same exactly when there is nothing to run |
| `WorkflowRunner.OutcomesAgreeIff` | datus/agent/workflow_runner.py:108-147 | callers of both get the same exactly when the runs are the same and the workflow they leave can be saved |
| `WorkflowRunner.RunAndStreamAgree` | datus/agent/workflow_runner.py:184-345 | in particular nodes that execute the same both ways, never raise without a message and report their setup run alike, whatever fails, for every non-zero budget (`NoPartialFailure`: a failed node has lost its child results) |
| `WorkflowRunner.DateParserBreaksTheStream` | datus/agent/node/date_parser_node.py:106-109 | a workflow with one such node that `run` completes and `run_stream` does not |
| `WorkflowRunner.HumanInTheLoopEscapes` | datus/agent/node/hitl_node.py:15-16 | in front of a `hitl` node `run` escapes with an exception and `run_stream` ends, from the same state, the node before completed in both |
| `Checkpoint.LoadContinues` | datus/agent/workflow.py:396-517 | run with one budget, save, load with a configuration and run with another: same nodes executed, list, position, results and context as one run with both budgets, if the checkpoint survives; without a configuration nothing loads (`LoadsIff`) |
| `Checkpoint.FaithfulIffSurvives` | datus/agent/workflow.py:396-517 | the file loads and going on from it is faithful for all nodes, modes and budgets exactly when it can be loaded, the context has nothing typed in undeclared entries and its fields are read as they were, no reflection round was counted, every node still to run is read back as it was, and so are the results of reasoning nodes that ran |
| `Checkpoint.RereadIff` | datus/agent/node/node.py:493-608 | what the file loses of a node, field by field: what it holds, its class, the form of its input, and what the classes do not read back unchanged |
| `Checkpoint.RestoredKeeps` | datus/agent/workflow.py:396-517 | whatever is lost, list, position, status and the other fields of the nodes are those that were saved, and undeclared entries of the context are mappings with the same content |
| `Checkpoint.LoadedSelectionFindsNoSql` | datus/agent/node/selection_node.py:33-52 | a checkpoint that loses nothing but the objects among its parallel results stops at the selection where the original run goes on |
| `Checkpoint.RunFollows` | datus/agent/node/node.py:493-560 | two runs that differ only in what executed nodes lose when they are read back (class, input, held data, result) stay that close, pass by pass |
| `Checkpoint.CompletedRunsAgain` | datus/agent/workflow.py:230-237 | running a completed workflow does nothing, going on from its loaded checkpoint executes the last node again |
| `Plan.CreateNodes` | datus/agent/plan.py:38-62 | the nodes of the flattened plan behind the start node, or the error of the first type that cannot be built |
| `Plan.ProcessConfig` | datus/agent/plan.py:65-157 | the loop with its running index numbers the flattened plan from 1 on |
| `Plan.ProcessItem` | datus/agent/plan.py:77-155 | what one configuration item contributes |
| `Plan.ProcessName` | datus/agent/plan.py:160-207 | aliases, agentic nodes and initial inputs of a named node |
| `Plan.ProcessEntries` | datus/agent/plan.py:86-134 | parallel and selection entries of a mapping, others ignored |
| `Plan.BuildNode` | datus/agent/node/node.py:195-256 | the node with its own or its given id, or an error |
| `Plan.ShippedRegistry` | datus/agent/node/node.py:74-256 | the shipped node types build start, parallel and selection nodes, which is all that plans ask of the table of types |
| `Plan.GenerateWorkflow` | datus/agent/plan.py:267-270 | the workflow with the nodes added one by one |
| `Plan.NumberedInOrderIff` | datus/agent/plan.py:38-157 | creation succeeds exactly if every planned type can be built; nodes come in plan order behind the start node with the planned type, input and name, each numbered by its position exactly when it is neither `gen_job` nor `feedback`, which have fixed ids |
| `Plan.NameIsPlanned` | datus/agent/plan.py:163-178 | a name adds one node, of the type its alias, the agent configuration or the name itself says |
| `Plan.NameIsKept` | datus/agent/plan.py:180-207 | which of these nodes start with the SQL task as input, and which remember the name they came under |
| `Plan.EntryIsPlanned` | datus/agent/plan.py:86-134 | a key of a mapping adds a parallel node with its children, a selection with its criteria or the default, or nothing |
| `Plan.NothingIsPlanned` | datus/agent/plan.py:77-155 | an item of another kind and an empty mapping add nothing |
| `Plan.GeneratedIsConsistentIff` | datus/agent/plan.py:267-270 | the generated workflow is consistent exactly when the plan has at most one `gen_job` and one `feedback` node |
| `Plan.EditedPlanIsConsistent` | datus/agent/workflow.py:67-145 | from such a plan on, all fresh edits keep it consistent |
| `Plan.DigitsAreInjective` | datus/agent/plan.py:83 | different positions have different numbers in their ids |
| `Plan.DigitsReadBack` | datus/agent/plan.py:83 | the number in an id is the position in decimal |
| `TestTargets.DedupePreserve` | ci/run-pr-tests.py:216-223 | the first occurrences in order |
| `TestTargets.Collapse` | ci/run-pr-tests.py:232-251 | the loop, early return included, keeps the targets that no directory target contains |
| `TestTargets.SelectTarget` | ci/run-pr-tests.py:477-492 | the target of one changed file |
| `TestTargets.SelectImpacted` | ci/run-pr-tests.py:473-494 | the collapsed targets of all changed files |
| `TestTargets.FilterExisting` | ci/run-pr-tests.py:497-512 | the collapsed existing ones |
| `TestTargets.ResolveImpacted` | ci/run-pr-tests.py:680-688 | selecting and then filtering |
| `TestTargets.DedupedKeepsOrder` | ci/run-pr-tests.py:216-223 | elements keep the order of their first occurrences |
| `TestTargets.CollapsedCovers` | ci/run-pr-tests.py:232-251 | every target is kept or lies under a kept directory, even if its own parent was dropped for a grandparent |
| `TestTargets.CollapsedIsFlat` | ci/run-pr-tests.py:232-251 | no kept target lies under a kept directory, and none is kept twice |
| `TestTargets.CollapsedIff` | ci/run-pr-tests.py:226-251 | a target is kept exactly if, by the characters of the normalized paths, it goes on behind the name and slash of no directory target |
| `TestTargets.NeverKeepsBoth` | ci/run-pr-tests.py:226-251 | a directory and something in it are never both kept |
| `TestTargets.SiblingIsKept` | ci/run-pr-tests.py:226-229 | a target whose name only starts with that of a directory is kept |
| `TestTargets.DroppedIsInsideKept` | ci/run-pr-tests.py:232-251 | what was dropped lies inside a directory that was kept |
| `TestTargets.NormalizedAt` | ci/run-pr-tests.py:209-213 | backslashes become slashes and one leading `./` goes |
| `TestTargets.UnitTestIsWanted` | ci/run-pr-tests.py:482-487 | a test file stands for itself, any other file among the unit tests for the directory it is in |
| `TestTargets.RuleIsWanted` | ci/run-pr-tests.py:489-492 | any other file asks for the target of the first rule whose prefix it has |
| `TestTargets.NothingIsWanted` | ci/run-pr-tests.py:477-492 | without a rule, or for an empty path, nothing is asked for |
| `TestTargets.CollapsedKeepsOrder` | ci/run-pr-tests.py:232-251 | kept targets keep their order |
| `TestTargets.CollapsedTwice` | ci/run-pr-tests.py:232-251 | collapsing again changes nothing |
| `TestTargets.WantedIsNormal` | ci/run-pr-tests.py:477-492 | every selected target is a normalized path below `tests/` |
| `TestTargets.ResolvedCovers` | ci/run-pr-tests.py:473-511 | through select, collapse, filter and collapse, every existing target of a changed file is kept or lies inside a kept directory wherever existence implies that of the directory |
| `TestTargets.ResolvedIsWanted` | ci/run-pr-tests.py:497-511 | what is left exists and was asked for, each target once and none inside another |
| `TestTargets.PicksLongestIff` | ci/run-pr-tests.py:489-492 | the first match has the longest matching prefix for every path exactly when prefixes come after their proper extensions |
| `ImpactTable.MappingPicksLongest` | ci/run-pr-tests.py:95-151 | the shipped table has that order |
| `ImpactTable.MappingIsNormal` | ci/run-pr-tests.py:95-151 | its targets are normalized paths below `tests/` |
| `ImpactTable.MappingMirrors` | ci/run-pr-tests.py:95-151 | every rule maps a directory of the sources to the one of the unit tests by the same name, but for two |
| `Junit.MergeJunit` | ci/run-pr-tests.py:758-794 | the nested loops build the merged tree, or fail on an attribute that is no number |
| `Junit.ParseTestResults` | ci/run-pr-tests.py:797-853 | the nested loops add up the report of all suites |
| `Junit.ParseFailures` | ci/run-pr-tests.py:832-844 | the failure, or else the error, of each test case in order |
| `Junit.MergePreservesIff` | ci/run-pr-tests.py:758-853 | parsing the merged file gives what parsing the files gives exactly when the oddly rooted files report nothing |
| `Junit.MergePreserves` | ci/run-pr-tests.py:758-853 | in particular for files rooted at `testsuite` or `testsuites`, missing and unparsable ones skipped by both sides |
| `Junit.OddRootIsLost` | ci/run-pr-tests.py:780 | whatever an oddly rooted file reports is lost by the merge |
| `Junit.ReportRootIsLost` | ci/run-pr-tests.py:780 | a concrete file whose test case disappears |
| `Junit.MergesIff` | ci/run-pr-tests.py:780-786 | merging succeeds exactly when parsing does and every suite's time is a number |
| `Junit.RootTotals` | ci/run-pr-tests.py:788-790 | the merged root has the suites of all files in order, and states the sums of the counts and times that they state |
| `Junit.ParsedAddsUp` | ci/run-pr-tests.py:797-853 | parsing succeeds exactly if every stated count is a number, and adds up what the suites state under each name |
| `Junit.SuitesOfOneMore` | ci/run-pr-tests.py:780 | the suites of a file are those below a root called `testsuites`, or the root |
| `Junit.FaultyCaseIsReported` | ci/run-pr-tests.py:832-844 | a test case is reported with its first failure, or else its first error, under its name, class and message |
| `Junit.NothingElseIsReported` | ci/run-pr-tests.py:832-844 | test cases without either and other elements are not reported |
| `Junit.FailuresInOrder` | ci/run-pr-tests.py:823-844 | failures are reported suite by suite |
| `AuditChecker.FlattenIfChain` | ci/audit_tests.py:799-820 | the cursor loop yields branches, else and chained nodes of the specification |
| `AuditChecker.ChainRunsAPath` | ci/audit_tests.py:799-820 | running the nested ifs and running one of the flattened paths are the same |
| `AuditChecker.VerifiedBranch` | ci/audit_tests.py:766-796 | a branch labelled verified has no run that completes without a check |
| `AuditChecker.EmptyBranch` | ci/audit_tests.py:766-796 | a branch labelled empty always completes without a check |
| `AuditChecker.VerifierIff` | ci/audit_tests.py:734-763 | direct verifiers are the statements, blocks apart, that check on every run, and fillers those that do nothing |
| `AuditChecker.LabelsIff` | ci/audit_tests.py:766-796 | a branch is verified exactly if one of its statements is a verifier, and empty exactly if all are fillers but for a leading docstring |
| `AuditChecker.Judge` | ci/audit_tests.py:249-257 | the labels decide as specified, the implicit missing else included |
| `AuditChecker.FlaggedIsPartial` | ci/audit_tests.py:234-271 | a flagged chain has a path whose completed runs have all checked something, and one whose runs never check |
| `AuditChecker.UnflaggedIsUniform` | ci/audit_tests.py:234-271 | a chain with nothing opaque is left alone only if on all paths completed runs have checked, or no path ever checks |
| `AuditChecker.FlaggedIff` | ci/audit_tests.py:234-271 | a chain with nothing opaque is flagged exactly when it can be passed without a check but is not always passed like that |
| `AuditChecker.FlaggedExactly` | ci/audit_tests.py:249-257 | any chain is flagged exactly when one path verifies, one does nothing and every one does either |
| `AuditChecker.ChecksSomewhereIff` | ci/audit_tests.py:734-763 | a chain has a run that checks exactly when some path has a check before every unavoidable jump |
| `AuditChecker.FlaggedWithoutAnyCheck` | ci/audit_tests.py:766-796 | a flagged chain none of whose runs checks anything |
| `AuditChecker.ChainsPartitionIfs` | ci/audit_tests.py:799-820 | every `if` node belongs to exactly one chain with a head |
| `AuditChecker.AstChecker.VisitIf` | ci/audit_tests.py:234-271 | a head is classified, an `elif` node only walked through, told apart by the set of handled nodes |
| `AuditChecker.AstChecker.ClassifyChain` | ci/audit_tests.py:246-269 | the chain is marked, and reported exactly if it is flagged and neither the tier of the file nor a comment on its line filters it out |
| `AuditChecker.AstChecker.VisitAll` | ci/audit_tests.py:234-271 | on any tree the chain heads are classified in source order, each once, and exactly the flagged ones that are not filtered out are reported |
| `AuditChecker.AstChecker.Emit` | ci/audit_tests.py:203-212 | an issue is added unless the rule does not apply to the tier or the quoted line has the comment |
| `AuditChecker.NoqaNamesNoRule` | ci/audit_tests.py:199-201 | whatever rule a silencing comment names, it silences every rule of its line, as far as the line is quoted |
| `AuditChecker.EmitsIff` | ci/audit_tests.py:194-212 | a flagged chain is reported exactly for the two tiers and if the first 120 characters of its line hold no silencing comment |
| `DeepMerge.MergeByLoop` | ci/prepare_docs_build.py:96-105 | the loop over the override computes the merge |
| `DeepMerge.LookupMerged` | ci/prepare_docs_build.py:96-105 | what the merged tree holds at any path, from what the two trees hold there and where the override ends in a leaf |
| `DeepMerge.OverrideLeafWins` | ci/prepare_docs_build.py:169-172 | a leaf of the override wins at its path |
| `DeepMerge.UntouchedIsKeptIff` | ci/prepare_docs_build.py:96-105 | a base value the override does not have is kept exactly when no override leaf stands above it |
| `DeepMerge.MergeIsIdempotent` | ci/prepare_docs_build.py:96-105 | merging a tree with itself gives that tree |
| `DeepMerge.MergeTwice` | ci/prepare_docs_build.py:96-105 | merging the same override again changes nothing |
| `DeepMerge.MergeAssociatesIff` | ci/prepare_docs_build.py:96-105 | three trees merge associatively exactly when wherever a leaf of the second stands between mappings, the third covers the first |
| `DeepMerge.MergeAssociates` | ci/prepare_docs_build.py:96-105 | in particular when that situation occurs at no path |
| `DeepMerge.MergeIsNotAssociative` | ci/prepare_docs_build.py:96-105 | three trees on which it is not |
| `CoverageMarker.RoundTripIff` | ci/harness/check_nightly_coverage.py:163-169 | an id is read back from a body that starts with its marker, whatever follows, exactly when it is not empty and has neither white space nor `>` |
| `CoverageMarker.ParseIff` | ci/harness/check_nightly_coverage.py:167-169 | the search yields the id of the leftmost match of the regular expression, the longest one there, and nothing exactly if there is no match |
| `CoverageMarker.BlankLosesTheId` | ci/harness/check_nightly_coverage.py:167-169 | ids with a blank, a tab, the end of a line or a `>` are not read back |
| `CoverageMarker.ParsedIsValid` | ci/harness/check_nightly_coverage.py:167-169 | the search never yields an id with white space or `>` |
| `CoverageMarker.SpelledIsValid` | ci/harness/validate_coverage_map.py:41 | the ids the coverage map admits are valid |
| `CoverageSync.CoverIsInherited` | ci/harness/check_nightly_coverage.py:66-81 | what covers a test in a class or file covers the class or file |
| `CoverageSync.LongerNameIsAnother` | ci/harness/check_nightly_coverage.py:66-81 | a test whose name merely starts with the claimed one does not cover it |
| `CoverageSync.RanCoversIff` | ci/harness/check_nightly_coverage.py:66-81 | a claim is covered exactly by itself and by what goes on behind it with `::` or `[` |
| `CoverageSync.ClassifyFlow` | ci/harness/check_nightly_coverage.py:121-153 | which statuses and coverage are fine and which are drift, and exactly the claims that nothing covers |
| `CoverageSync.IndexIssues` | ci/harness/check_nightly_coverage.py:274-280 | the first issue of each flow in the listing |
| `CoverageSync.SyncFlow` | ci/harness/check_nightly_coverage.py:305-329 | the calls made for one flow, up to the one that raises, and the action reported for it |
| `CoverageSync.SyncIssues` | ci/harness/check_nightly_coverage.py:283-302 | all flows against the listing taken at the start, and the list of reported actions |
| `CoverageSync.SyncOneSettles` | ci/harness/check_nightly_coverage.py:305-329 | one flow touches its own issue only, even when a call fails, and settles when none does |
| `CoverageSync.CallsMade` | ci/harness/check_nightly_coverage.py:305-329 | the calls for one flow in each case, none behind the first that raises, and the action reported |
| `CoverageSync.SyncConverges` | ci/harness/check_nightly_coverage.py:283-329 | from at most one issue a flow, each flow without a failing call ends with an up-to-date open issue or none open, and all other issues are untouched |
| `CoverageSync.OneOpenIssue` | ci/harness/check_nightly_coverage.py:283-329 | from at most one issue a flow and without errors a flow ends with exactly one open issue if it needs one and none otherwise |
| `CoverageSync.RightNumberIff` | ci/harness/check_nightly_coverage.py:274-329 | whatever issues there are to begin with, a flow ends with that number of open issues exactly when no open issue but the first listed carries its marker, no other flow's new issue reads back as its own, and its id can be read back if it needs an issue |
| `CoverageSync.SecondSyncIsQuiet` | ci/harness/check_nightly_coverage.py:283-329 | a second sync creates, closes and reopens nothing and changes no issue |
| `CoverageSync.SecondReport` | ci/harness/check_nightly_coverage.py:283-302 | the action list of a second sync names an update for each flow that needs an issue, and nothing else |
| `CoverageSync.InvalidIdNeverSettles` | ci/harness/check_nightly_coverage.py:305-318 | a flow whose id cannot be read back gets a new issue at every sync |
| `CoverageSync.DuplicateStaysOpen` | ci/harness/check_nightly_coverage.py:274-280 | of two open issues for a recovered flow only the first listed is closed |
| `TableMatch.CompareVectors` | benchmark/scripts/evaluation.py:75-91 | the cell loop decides the vector match |
| `TableMatch.CellsMatchIff` | benchmark/scripts/evaluation.py:83-91 | two cells match if both are missing, or the same text, or numbers at most 0.01 or a billionth of one of them apart |
| `TableMatch.VectorsMatchIff` | benchmark/scripts/evaluation.py:75-91 | columns match if they have the same length and match place by place, with the order ignored after both are in order, however sorted |
| `TableMatch.ComparePandasTable` | benchmark/scripts/evaluation.py:100-110 | the score is 1 exactly when every gold column matches some predicted column |
| `TableMatch.MatchesIff` | benchmark/scripts/evaluation.py:100-110 | every gold column has to match one of the predicted columns |
| `TableMatch.ArrangementDoesNotMatter` | benchmark/scripts/evaluation.py:75-110 | with the order ignored, permuting rows or columns of either table changes no score |
| `TableMatch.MoreColumnsStillMatch` | benchmark/scripts/evaluation.py:100-110 | more predicted columns never turn a match into a mismatch, so that a table that contains the gold columns matches (`TableMatch.TableMatchesItself` is the bare case) |
| `TableMatch.IgnoringOrderReorders` | benchmark/scripts/evaluation.py:75-91 | a match with the order ignored is a place-by-place match with some reordering of the other column |
| `TableMatch.WithoutNumbersIff` | benchmark/scripts/evaluation.py:75-91 | where one side has no numbers, ignoring the order compares columns as bags |
| `TableMatch.SortingPartsNumbers` | benchmark/scripts/evaluation.py:75-81 | two columns that match within the tolerance place by place and no longer when sorted by text |
| `TableMatch.SortingKeepsMatchesIff` | benchmark/scripts/evaluation.py:75-91 | every place-by-place match is a match with the order ignored exactly when two matching pairs that the sort key orders in opposite ways also match crosswise |
| `TableMatch.SortingIsUnique` | benchmark/scripts/evaluation.py:76-81 | under a key that tells all cells apart there is one way to sort |

## Left out

- `login_browser`, PKCE and the key chain; the save of a login is outside the refresh lock, so it is not one of the concurrent actions.
- HTTP, SSE and ASGI plumbing, session liveness, tool bodies, language-model calls and database connectors.
- Atomic replacement and permissions of the token file, and an error after the replacement; the different error kinds of a failed refresh are one result.
- The body of a background sync with its drift guard, and the feature switch; a request stands for one that passed these checks.
- Bytes of a query string that are no UTF-8; connector objects inside a tool context.
- Objects shared between workflow, context, node inputs and caller: all of them are values, and a node changes by replacing it in the map.
- Error texts of failed results, which are one value; which contexts, inputs and results the classes of a configuration accept and what they make of them, which are parameters of loading; which workflows a YAML file can hold, which is a parameter of finalizing.
- The date context that the date parser hangs on the workflow, which no file keeps and no node reads.
- Workflows.Workflow.ApplyEdits: the add action takes an already built node, because the class that `adjust_nodes` names is imported for type checking only.
- Choice of the plan by name and the schema preload behind `generate_workflow`.
- What precedes the two loops (prerequisites, initialization, plan mode) and the progress events between their steps; a `max_steps` that is `None` or missing.
- Key order in merged mappings, and the parts of `merge_mkdocs_config` other than its use of `deep_merge`.
- XML, YAML and Python parsing: the models start from parsed trees; NaN and infinite times of a suite.
- What conditions of an `if` do when they are evaluated, and the other rules of the linter, `_is_tautological` among them.
- `build_ran_set`, the digest and the wording of issues behind the marker: these would add only members that restate their bodies.
- The limit of 1000 listed issues.
- Floating-point detail of the table comparison: numbers are reals, and the sort key is any total order that tells cells apart.
