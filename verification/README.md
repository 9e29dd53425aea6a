# fancy-gpt: verified models

fancy-gpt runs model turns for many command-line and MCP processes at once. They share JSON
records on disk, reach a browser through a bridge hub, send a byte-budgeted context, and decide by
polling a page when an answer has settled. This project models those parts in Dafny and proves what
they keep in every run. `dafny verify dfyconfig.toml` checks all of it.

## What is modelled

**Requests, sessions and chats** (`engine.py`, `store.py`, `conversations.py`). `Store` gives each of
the 17 store calls as one lock section: what it reads, its writes in order, what it returns or raises.
`Engine` gives the programs of a client (the interactive and automatic flows, the two submissions, a
progress poller, the session commands) with a program counter. `Machine` interleaves any number of
clients; taking a file lock, each single file write, leaving the section, a step without a store call,
taking an operation lock and dying are separate moves. `Invariant` and `Preservation` hold the
inductive invariant at the granularity of single writes. From it follow growth and lifecycle
(`Growth`), absence of deadlock and bounded runs (`Liveness`), each store call being one step of its
directory and what closing a session closes (`Atomicity`), how runs and submissions end and exactly when
they fail (`Outcomes`, `Endings`, `Submissions`), that undisturbed ones complete (`Flows`, `Resolving`), the
conversation and the tunnel of a chat (`Conversation`, `ChatTunnels`), the active and MAIN chats (`Sessions`), and three concrete runs in which a property
that reads as intended fails (`Races`): `archive_chat` checks in other sections than it writes,
`resolve` binds an explicit conversation without the chat lock, and a process can die between the two
writes of `get_or_create_main_chat`. Each of the three has, beside its run, the exact condition under
which the property holds. `Stores` and `Managers` are the same code as classes: their methods are
proved to do, as a whole, what the sections do, and what that is.

**Bridge hub and worker** (`bridge/server.py`, `bridge/client.py`). `Bridge` is a step machine of
browser and controller sessions that meet in pending queues, timeouts, stale marking, counters and a
progress table; `BridgeProofs` and `BridgeCounts` prove correlation, accounting and progress for every
interleaving, `BridgeHistory` ties each reply to the steps of the run that chose its worker, handed the job
over and decided it, `BridgeWatch` says what keeps a worker in service and takes it
out, and `BridgeLedger` which steps every counter counts. `Progress` proves the capped table to be a bounded recency list. `BridgeObjects` holds the
worker and hub classes, `Driver` the client's driver, and `EndToEnd` connects a driver to the hub.

**Context selection** (`context_builder.py`). `Context` gives collection, ordering, the budget loop and
the whole build as functions, `ContextProofs` the theorems about the parts, `ContextPacks` what a whole pack
holds, in terms of the request and the manifest alone, `ContextBuilders` the loops that fill and visit the
dictionary in place. The file system is a map from canonical path to content.

**Settled answers** (`browser/binding.py`, `extension/common/site_chatgpt.js`). `Binding` gives the
Python tracker and the JavaScript loop, an exact description of the tracker by the history of polls, and
the relation between the two; `BindingChoice` an exact description of the loop: which turn it takes, when
it refuses to guess, when it returns, what it reports; `BindingReads` what either makes of a page first; `BindingRuns` the tracker object, both loops, and what the JSON
completeness test sees of a document that is still arriving.

**Framing and tunnels** (`bridge/native_host.py`, `tunnels/resolver.py`): `Framing` and `Tunnels`;
`Sorting` is what `sorted` and `list.sort` do in the context builder and the resolver.

Identifiers, URLs, prompts and texts that are only compared are integers (`Id`); paths are integers in
the order of their strings. Clocks, uuids, the provider's answers, health probes, git's output and the
files themselves are inputs.

## Where the code and its intent differ

- A session lists at most one MAIN chat, but its directory can hold two MAIN records: exactly when a
  process stands or died between the two writes that make one of them, and the other is listed or stands
  between two such writes as well (`Sessions.TwoMainExactly`, `Races.TwoMainRecords`).
- The active chat can be archived: exactly by an archiving write made after the chat became active
  (`Sessions.ActiveArchivedExactly`, `Races.ArchiveRace`). In call-at-a-time histories it is not.
- A bound chat can be rebound: exactly by a binding write of another id, which needs an explicit
  conversation id (`Conversation.ReboundExactly`, `Races.ExplicitRebinds`). In call-at-a-time histories it
  is not, explicit ids included (`SerialBinding.SerialNeverRebinds`).
- `health_check` takes whatever message comes next, so between turns it can swallow a late reply
  (`Driver.HealthCheckTakesLateReply`); the provider calls it once, before the first turn.
- A progress record can evict itself: exactly if the table is full, the job is new, and the clock has
  fallen behind every time in the table (`Progress.EvictsItselfExactly`).
- The writer of native messages has no limit while the reader has one, so the round trip holds exactly
  for messages of at most 8 MiB (`Framing.RoundTrip`).
- `looksLikeCompleteJson` counts brackets inside strings too, so a part of a document can pass and the
  whole be refused (`BindingRuns.QuotedBracketFools`). It tells exactly when a document is all there if and
  only if the brackets between the outer ones, those in strings counted, balance and never close more than
  they have opened (`BindingRuns.TruncationSeenExactly`); the whole is refused if and only if they do not
  balance (`BindingRuns.WholeRefusedExactly`).

## Model

| member | source | states |
|---|---|---|
| ReportValidation.AcceptedIffAnswers | src/fancy_gpt/engine.py:110-149 | A report is accepted exactly if it answers the request: its id and mode, the mode's own contract, every required section, task and evidence id, and no URL it does not declare. |
| Store.WritesAreGuarded | src/fancy_gpt/store.py:52-184 | Every write of every store call, at most two per call, goes to the directory whose lock the call holds. |
| Store.ReadsAreGuarded | src/fancy_gpt/store.py:223-418 | What a store call writes and returns depends only on the directory whose lock it holds, so the read made on entering the section stays good until it is left. |
| Preservation.TraceOk | src/fancy_gpt/engine.py:76-317 | The invariant over disk, clients and locks holds in every reachable state of any number of clients, at every single write, with deaths anywhere. |
| Growth.TraceGrows | src/fancy_gpt/store.py:75-184 | Along every run chats and chat lists only grow, request lists are only appended to, closed sessions are frozen, requests keep their session and chat and only rise in rank, request and route stay from the first stage on, manifest and context pack in the final one, and terminal folders never change. |
| Growth.AtMostThreeChanges | src/fancy_gpt/store.py:123-184 | Every request changes state at most three times, in every run. |
| Growth.ChangesBelowRank | src/fancy_gpt/store.py:123-184 | The number of state changes so far is at most the rank of the present state, which only rises. |
| Growth.TerminalIsFrozen | src/fancy_gpt/store.py:139-184 | The whole folder of a COMPLETE or FAILED request is the same in every later state, whatever submissions, pollers and failures still arrive. |
| Growth.ClosedIsFrozen | src/fancy_gpt/store.py:274-282 | From the moment a session is closed its chat list and active chat are the same in every later state. |
| Growth.NothingIsLost | src/fancy_gpt/store.py:392-418 | Under every interleaving of attach, bind and archive no listed request is lost or moved, no chat disappears, and an active chat is never unset. |
| Growth.ProgressStutters | src/fancy_gpt/store.py:139-159 | A poller's move changes nothing but the two partial-text fields, and those only while the request is running. |
| Endings.PollsNote | src/fancy_gpt/store.py:139-159 | Every poll that returns has noted its text and time exactly in a running state, and nothing else. |
| Growth.StatesVouch | src/fancy_gpt/engine.py:177-220 | In every reachable state a COMPLETE request has a stored result that answers the stored request, route and manifest; one in its final stage has manifest and pack of one submission. |
| Growth.ListedOnce | src/fancy_gpt/engine.py:76-92 | In every reachable state a request listed in a chat has a status record that names that session and chat, and is listed nowhere else and only once. |
| Growth.SessionsWellFormed | src/fancy_gpt/store.py:284-351 | In every reachable state the listed chats are distinct and exist, the active chat is one of them, and at most one is the MAIN chat, which is only there with an active chat. |
| Atomicity.CallsAreAtomic | src/fancy_gpt/store.py:38-44 | In every run each store call that returns took, between its first step and its last, one step of its directory, and yields what it yields on the disk as it was at its first step. |
| Atomicity.CommandsEnd | src/fancy_gpt/store.py:223-418 | Every session command that returns (open, close, new chat, select, archive) succeeded exactly when it should and made exactly the directory it should out of the one it entered on, whatever other processes do. |
| Atomicity.ArchiveChecks | src/fancy_gpt/store.py:383-390 | In every run an archiving command fails on an unknown session or chat and on the chat that was active when it looked, leaves an archived one as it is, and goes on to archive any other. |
| Atomicity.ClosingCloses | src/fancy_gpt/store.py:274-282 | The write of a closing command sets the closing time and leaves repository, chat list, active chat, chats and all other directories as they were. |
| Atomicity.ClosedRefuses | src/fancy_gpt/store.py:284-381 | From the moment a session is closed, every creation, selection and main-chat call on it that returns has been refused, also one that was under way by then. |
| Atomicity.ClosedResolvesNothing | src/fancy_gpt/store.py:245-259 | From that moment no run that had not yet seen the session is ever resolved to a chat of it. |
| Outcomes.ResolutionsFollowRequests | src/fancy_gpt/conversations.py:26-72 | In every run a resolved request is unbound exactly if it is temporary, and otherwise bound to the session it names, to the chat it names and to the conversation it names, if it names them. |
| Endings.RunsEnd | src/fancy_gpt/engine.py:151-317 | In every run, a `prepare` that ends leaves its request waiting for its plan with only request and route stored, and never ends otherwise; a `run_automatic` that succeeds leaves it COMPLETE with an answering result, and its chat was bound to the conversation its status names; one that does not leaves it FAILED without a result. In each case the request is listed in its chat. |
| Endings.LeavesNew | src/fancy_gpt/engine.py:168-175 | In every run the move that takes a request out of NEW is a write of the run it belongs to, and leaves it waiting for its plan for a `prepare`, in planning for an automatic run, with its request, route and resolution and no manifest, context pack or result. |
| Endings.GivesUpExactly | src/fancy_gpt/engine.py:235-317 | In every run a step of an automatic run leads to failure if and only if the provider, the planner check or the context builder fails at that step, the report does not answer, or the chat by then carries another conversation; no interference makes it fail. |
| Endings.TurnsAreSentTheChat | src/fancy_gpt/engine.py:271-292 | In every run, explicit conversation ids or not, a final turn goes to the conversation its chat has when it is read again under the chat lock, and to the resolved one only if it has none. |
| Submissions.SubmissionsEnd | src/fancy_gpt/engine.py:177-222 | In every run a submission that ends is accepted with everything stored and the next state reached, or refused because the request did not wait for it, a check failed, or the report does not answer. |
| Submissions.RefusesExactly | src/fancy_gpt/engine.py:177-222 | In every run a step of a submission refuses it if and only if at that step its request does not wait for it, the planner check or the context builder refuses, or the report does not answer what is stored. |
| Flows.PrepareFinishes | src/fancy_gpt/engine.py:151-175 | In any run, from a state in which nobody is inside a store call, a `prepare` that has its request and is then left alone ends with success. |
| Flows.SubmitFinishes | src/fancy_gpt/engine.py:177-222 | In any run, from a state in which nobody is inside a store call or holds the request's operation lock, a submission that the request waits for, that is accepted and then left alone ends with success. |
| Flows.AutomaticFinishes | src/fancy_gpt/engine.py:235-317 | In any run, from a state in which nobody is inside a store call and nobody else holds an operation lock, an automatic run that has its request, is given what answers it, whose chat takes the conversation that comes back, and that is then left alone ends with success. |
| Resolving.ResolvesAlone | src/fancy_gpt/conversations.py:26-72 | The step machine's resolution, undisturbed, fails if and only if the refusal condition of the method `Resolve` holds, and otherwise chooses the chat the method chooses, or makes one of the right kind and activates it unless it is independent. |
| Resolving.InteractiveFlowCompletes | src/fancy_gpt/engine.py:151-222 | For every request an empty store does not refuse, every plan and every answering report there is a run from an empty work directory in which `prepare`, `submit_planner` and `submit_final` all succeed and the request ends COMPLETE with that plan and that report. |
| Resolving.AutomaticFlowCompletes | src/fancy_gpt/engine.py:224-317 | The same for `run_automatic`, unless the request names a conversation and another one comes back. |
| Liveness.LocksAreOrdered | src/fancy_gpt/store.py:38-44 | No program waits for an operation lock while it holds any lock. |
| Liveness.NoDeadlock | src/fancy_gpt/engine.py:271-311 | In every reachable state with a client that has not finished or died some client can move. |
| Liveness.RunsAreBounded | src/fancy_gpt/engine.py:224-317 | Every run is at most as long as the fuel of its first state, so runs continued as long as possible end with every client finished or dead. |
| Conversation.BoundOnce | src/fancy_gpt/conversations.py:79-90 | Without explicit conversation ids a chat's conversation is write-once in every run. |
| Conversation.TurnsContinueTheChat | src/fancy_gpt/engine.py:271-292 | Without explicit conversation ids every final turn is sent exactly the conversation its chat is bound to at that moment, so no second fresh conversation opens on a bound chat. |
| Conversation.TurnsAreSerial | src/fancy_gpt/engine.py:271-311 | Two clients never have a final turn open on the same chat. |
| Conversation.ReboundExactly | src/fancy_gpt/conversations.py:57-65 | With explicit ids allowed, a move rebinds a bound chat if and only if it is a binding write of another id. |
| ChatTunnels.TunnelFollowsRuns | src/fancy_gpt/conversations.py:79-90 | In every run the tunnel of a chat changes only by the binding write of a run that was given a tunnel, and to that one; a run without one leaves it. |
| ChatTunnels.BindingNotesTunnel | src/fancy_gpt/conversations.py:79-90 | The chat of a run that was given a tunnel carries it when the run has bound its turn. |
| SerialBinding.SerialNeverRebinds | src/fancy_gpt/conversations.py:57-90 | In every call-at-a-time history a bound chat is never rebound, whatever explicit conversation ids the requests carry. |
| Races.ExplicitRebinds | src/fancy_gpt/conversations.py:57-65 | A run in which two explicit requests both read an unbound chat and the second rebinds it. |
| Sessions.ContinueAgrees | src/fancy_gpt/store.py:320-351 | Two `continue` resolutions of one session with no activating move in between get the same chat, however their steps interleave. |
| Sessions.ActiveArchivedExactly | src/fancy_gpt/store.py:383-390 | A move makes the active chat an archived one if and only if it is an archiving write of the chat that is active by then. |
| Sessions.SerialContinueFindsLiveChat | src/fancy_gpt/store.py:320-390 | In every call-at-a-time history `continue` without a chat id never resolves to an archived chat. |
| Sessions.MainChatsExactly | src/fancy_gpt/store.py:320-351 | A MAIN record is unlisted if and only if its creator stands or died between its two writes; two listed MAIN chats of a session are the same chat. |
| Sessions.TwoMainExactly | src/fancy_gpt/store.py:320-351 | In every reachable state a session directory holds two MAIN records if and only if the creator of one stands or died between its two writes and the other is a listed MAIN chat or one whose creator does so too. |
| Races.ArchiveRace | src/fancy_gpt/store.py:383-390 | A run in which a selection between the check and the write of `archive_chat` leaves an archived active chat. |
| Races.TwoMainRecords | src/fancy_gpt/store.py:320-351 | A run in which a death between two writes leaves a session directory with two MAIN records. |
| Stores.SessionStore.CreateSession | src/fancy_gpt/store.py:223-238 | Does what its lock section in the concurrent model does: an unknown session is created, open and empty, a known one refused. |
| Stores.SessionStore.CloseSession | src/fancy_gpt/store.py:274-282 | The same for closing: a known session gets the closing time, also if it had one, and is else as it was; an unknown one is refused; no other directory changes. |
| Stores.SessionStore.CreateChat | src/fancy_gpt/store.py:284-318 | The same for a new chat: refused for an unknown or closed session; otherwise the chat is empty, listed last, and active if asked for. |
| Stores.SessionStore.GetOrCreateMainChat | src/fancy_gpt/store.py:320-351 | The same for the active chat as it is or, if there is none, a new MAIN chat that is listed last and active. |
| Stores.SessionStore.SelectChat | src/fancy_gpt/store.py:365-381 | The same for selection: the chat is active afterwards if the session is open and lists it and it is not archived; refused otherwise. |
| Stores.SessionStore.UpdateChat | src/fancy_gpt/store.py:392-406 | The same for an update: exactly the named fields of the chat and the two times change. |
| Stores.SessionStore.AppendRequest | src/fancy_gpt/store.py:408-418 | The same for attaching a request: it is the last one listed, or already listed and nothing changes. |
| Stores.SessionStore.ArchiveChat | src/fancy_gpt/store.py:383-390 | With nobody in between, exactly a known chat that is not active is archived, now or already, and nothing else changes but times. |
| Stores.RequestStore.CreateStatus | src/fancy_gpt/store.py:75-108 | Does what its lock section in the concurrent model does: the first status is stored, a second one refused. |
| Stores.RequestStore.Transition | src/fancy_gpt/store.py:123-137 | The same for the compare-and-swap: from the expected state the new one is stored, with the conversation if one is given; otherwise nothing changes. |
| Stores.RequestStore.UpdateProgress | src/fancy_gpt/store.py:139-159 | The same for a poller's call: text and time are stored exactly in a running state. |
| Stores.RequestStore.UpdateStatus | src/fancy_gpt/store.py:161-170 | The same for noting a conversation on a request. |
| Stores.RequestStore.Fail | src/fancy_gpt/store.py:172-184 | The same for failing: every request that is not COMPLETE becomes FAILED with the error. |
| Managers.ConversationManager.Resolve | src/fancy_gpt/conversations.py:26-72 | Refused if and only if the session is closed or of another repository, the named chat is unknown or archived, or its conversation is another than the explicit one; otherwise exactly the chosen or new chat, with everything else untouched. |
| Managers.ConversationManager.PickChat | src/fancy_gpt/conversations.py:36-56 | Which chat an explicit id and the four policies select, and when that fails. |
| Managers.ConversationManager.EnsureSession | src/fancy_gpt/store.py:245-259 | The session exists afterwards; usable unless it was there for another repository or closed. |
| Managers.ConversationManager.BindConversation | src/fancy_gpt/conversations.py:79-90 | Refused, changing nothing, exactly if the chat carries another id; nothing for an unbound resolution or an answer without id; otherwise bound. |
| Managers.ReviewEngine.SubmitFinal | src/fancy_gpt/engine.py:204-222 | Accepted if and only if the request waits for its final result and the payload answers it; then result and state are stored and nothing else; refused submissions change nothing. |
| Managers.ReviewEngine.SubmitPlanner | src/fancy_gpt/engine.py:177-202 | Accepted if and only if the request waits for its plan and planner checks and context build succeed; otherwise the folder is as before, but for the new manifest exactly if only the build failed. |
| Managers.ReviewEngine.NewRequest | src/fancy_gpt/engine.py:76-92 | The request's folder holds exactly status, request and route, and the request is the last one listed in its chat; no other request or chat changes. |
| Managers.ReviewEngine.Prepare | src/fancy_gpt/engine.py:151-175 | Refused exactly if the resolution is, changing no request; otherwise the request waits for its plan with only request and route stored, names its session, chat and policy, and is the last one listed in the chat it was resolved to. |
| Managers.ReviewEngine.PlanStage | src/fancy_gpt/engine.py:239-269 | Reaches the final stage if and only if planner and context builder deliver; the manifest is stored exactly if the planner delivers, the context pack exactly if both do, and otherwise the request stays in its planning state. |
| Managers.ReviewEngine.FinalStage | src/fancy_gpt/engine.py:271-311 | The turn is sent the chat's conversation, or else the resolved one; the chat is rebound only to the id that came back and only if it carried no other; complete if and only if that holds and the report answers the request. |
| Managers.ReviewEngine.RunResolved | src/fancy_gpt/engine.py:235-317 | A report if and only if plan, context, turn, conversation and report are all in order, with everything stored; otherwise the request is FAILED without a result; the turn is sent the chat's conversation, the chat is bound exactly if a turn came back that it takes; other requests and chats are untouched. |
| Managers.ReviewEngine.RunAutomatic | src/fancy_gpt/engine.py:224-317 | End to end: no request exactly if the resolution is refused; else the request is listed last in the chat it was resolved to, COMPLETE with a report or FAILED, and a finished run leaves the chat bound to the conversation that came back. |
| Progress.TableRefinesRecency | src/fancy_gpt/bridge/server.py:88-128 | With a strictly increasing clock and a cap of at least one, after any records and clears the table holds exactly the jobs and texts of the touch, remove, evict-oldest list, and never more than the cap. |
| Progress.RecordKeepsItself | src/fancy_gpt/bridge/server.py:111-116 | A record never evicts its own job. |
| Progress.EvictsItselfExactly | src/fancy_gpt/bridge/server.py:111-116 | For any clock, exactly when a record does evict its own entry. |
| BridgeHistory.RepliesCorrelate | src/fancy_gpt/bridge/server.py:44-71 | In every run the i-th reply of a controller answers its i-th job under that job's id, and a step of the run decides it. A relayed message was taken in that step from the worker the job was handed to in an earlier step, with the controller in that one request in between, and is the first about the job that this worker dispatched from then on. A timeout is the timeout step of such a request, with nothing about the job dispatched in between; a failed sending is a step of such a request. Before the hand-over, in a step that looked for one, that worker was the first that was listed, alive, heard from in time and serves the tunnel. No worker means that none was. |
| BridgeHistory.DecidedInOrder | src/fancy_gpt/bridge/server.py:241-285 | Each job of a controller is decided by a step of its own, in the order asked, and handed over only after the one before was decided, whether or not job ids repeat. |
| BridgeHistory.FindsFirstFit | src/fancy_gpt/bridge/server.py:136-144 | A look-up finds the first listed worker that is alive, heard from in time and serves the tunnel, and nothing exactly if there is none. |
| BridgeWatch.FirstForIs | src/fancy_gpt/bridge/server.py:64-71 | The first message for a job is one of the messages, is for the job, and no earlier one is. |
| BridgeWatch.ScanMarks | src/fancy_gpt/bridge/server.py:136-144 | A look-up takes exactly the listed workers out of service that it passes and that have been silent for too long; it passes those up to the one it finds. |
| BridgeLedger.LookingMarks | src/fancy_gpt/bridge/server.py:252-264 | A probe and the look-up for a job do just that in the hub, said without the look-up's own function. |
| BridgeWatch.SnapshotMarks | src/fancy_gpt/bridge/server.py:146-151 | A snapshot does so for all listed workers. |
| BridgeWatch.SpeakingKeepsFit | src/fancy_gpt/bridge/server.py:230-243 | Any message of a worker in service, a heartbeat too, keeps it fit for its tunnels exactly until the limit has passed. |
| BridgeWatch.StaysFit | src/fancy_gpt/bridge/server.py:136-151 | In every run a worker that is fit for a moment stays fit for it unless it disconnects or somebody looks after that moment. |
| BridgeWatch.OutForGood | src/fancy_gpt/bridge/server.py:130-151 | In every run a worker that disconnected or was found silent for too long is never given a job again, whatever it still sends. |
| BridgeWatch.AnsweredJobsAreCleared | src/fancy_gpt/bridge/server.py:273-285 | In every run the progress of a job that was given to a worker is removed in a step of its controller before the job is answered. |
| BridgeProofs.IdleHasAnswered | src/fancy_gpt/bridge/server.py:262-285 | A controller that waits for its next message has answered every job it sent. |
| BridgeProofs.OnePending | src/fancy_gpt/bridge/server.py:48-62 | A worker has at most one pending job, that of the controller that holds its request lock. |
| BridgeProofs.ReplyBeatsTimeout | src/fancy_gpt/bridge/server.py:48-71 | A reply dispatched before the timeout step cannot be lost: the timeout is not possible any more. |
| BridgeCounts.JobsAddUp | src/fancy_gpt/bridge/server.py:100-109 | In every reachable state hub succeeded + failed + in flight = started + rejected, both counts are those of the settled jobs, and per worker started = succeeded + failed + in flight + sends that raised. |
| BridgeCounts.WorkerRunsOneJob | src/fancy_gpt/bridge/server.py:44-62 | A worker's started count is ahead of its finished ones by one at most. |
| BridgeLedger.HubCounts | src/fancy_gpt/bridge/server.py:100-109 | In every run the hub has started a job for each starting step, succeeded for each job booked with a result, and failed for each one booked without or rejected. |
| BridgeLedger.WorkerCounts | src/fancy_gpt/bridge/server.py:44-62 | In every run a worker has started a job for each hand-over to it, succeeded for each result taken from it, failed for each error taken and each timeout, and neither for a message that could not be sent. |
| BridgeCounts.NeverStuck | src/fancy_gpt/bridge/server.py:48-62 | While a controller has a job to answer, some controller can move. |
| BridgeCounts.ProgressIsRecency | src/fancy_gpt/bridge/server.py:111-128 | The hub's table refines the recency list of capacity 200 under every interleaving of messages and finished jobs. |
| BridgeObjects.BrowserWorker.Dispatch | src/fancy_gpt/bridge/server.py:64-71 | Only the first message for a pending job is kept. |
| BridgeObjects.BrowserWorker.Request | src/fancy_gpt/bridge/server.py:44-62 | Returns the first arriving message with the job's id, or times out if there is none; the job is not pending afterwards and exactly the right counters move. |
| BridgeObjects.BridgeHub.Unregister | src/fancy_gpt/bridge/server.py:130-134 | The worker is dead and unlisted, all others stay listed. |
| BridgeObjects.BridgeHub.WorkerFor | src/fancy_gpt/bridge/server.py:136-144 | The first worker that is alive, heard from in time and serves the tunnel, nothing exactly if there is none; those passed over are out of service exactly if silent for too long, those behind it are not looked at. |
| BridgeObjects.BridgeHub.MarkStale | src/fancy_gpt/bridge/server.py:146-151 | Exactly the live workers not heard from for more than the limit are marked. |
| BridgeObjects.BridgeHub.RecordProgress | src/fancy_gpt/bridge/server.py:111-116 | The loop over the table evicts the first of the oldest entries, as the table function of the recency theorem does. |
| BridgeObjects.BridgeHub.GetProgress | src/fancy_gpt/bridge/server.py:118-124 | The text of the job's entry, nothing exactly if it has none. |
| BridgeObjects.BridgeHub.RunJob | src/fancy_gpt/bridge/server.py:262-285 | Exactly the first worker that is alive, heard from in time and serves the tunnel is given the job, and only its counts and pending table move; the reply is the first message for the job if the timeout is valid, the send succeeded and there is one, and else an error under the job's id; one success or one failure is counted. |
| Driver.BridgeBrowserDriver.SubmitPrompt | src/fancy_gpt/bridge/client.py:89-113 | Sends a known, unsubmitted turn with its conversation mode; the prompt is noted even if the driver is not started. |
| Driver.BridgeBrowserDriver.Wait | src/fancy_gpt/bridge/client.py:115-134 | Takes one reply and judges it, with the errors in the order of the checks. |
| Driver.AnswersExactly | src/fancy_gpt/bridge/client.py:115-134 | A wait answers if and only if the turn is known, the driver started and the next message is a result of that turn with a text, with or without a conversation; and it answers just that. |
| Driver.SentOnce | src/fancy_gpt/bridge/client.py:89-113 | In any run of the driver no turn is sent twice, whatever fails in between. |
| Driver.SendsWhatWasAsked | src/fancy_gpt/bridge/client.py:71-113 | In any run every job sent carries the prompt submitted for its turn, and the conversation its turn was begun with: that id, or else a persistent or a fresh one. |
| Driver.AnswersOwnTurn | src/fancy_gpt/bridge/client.py:115-134 | In any run an answer carries the text of a result that arrived for that very turn; with a server that only answers jobs it was sent, the turn had been sent, with the prompt it still has. |
| EndToEnd.HubRuns | src/fancy_gpt/bridge/server.py:241-285 | Seen from the hub, every run of a connected driver, its session and all other sessions is a run of the hub, so the theorems about the hub hold in it. |
| EndToEnd.HubIsHonest | src/fancy_gpt/bridge/server.py:241-285 | With a driver connected to the hub, the j-th reply that arrives answers the j-th message sent, a job under its id and a probe with a probe result, in every interleaving with all other sessions. |
| EndToEnd.AnswersCrossTheHub | src/fancy_gpt/bridge/client.py:115-134 | The text a connected driver returns for a turn is that of a message which, in a step of the hub's run, the session took from the worker it had handed the turn's job to in an earlier step, with nothing else in between; it is the first message about the turn that this worker, who serves the tunnel, dispatched after the hand-over, and the driver had sent the job. |
| Driver.LateRepliesAreSkipped | src/fancy_gpt/bridge/client.py:118-120 | Replies to turns given up and to probes each fail one wait with the identity mismatch, and the wait after them judges the turn's own reply. |
| Driver.BridgeBrowserDriver.ReadHealth | src/fancy_gpt/bridge/client.py:62-69 | The second half of a health check takes the next message, and is content exactly with an available probe result. |
| Driver.HealthCheckTakesLateReply | src/fancy_gpt/bridge/client.py:62-69 | A turn whose reply was taken by a health check gets none of the replies that were there. |
| ContextProofs.CollectsLeast | src/fancy_gpt/context_builder.py:299-303 | A file is a candidate with a priority if and only if that is the least priority of any selector that reaches it under a name not hidden. |
| ContextProofs.CollectionIsConfluent | src/fancy_gpt/context_builder.py:37-94 | The sorted file list does not depend on the order of requirements, includes and attachments, nor on repetitions. |
| ContextProofs.FailsExactly | src/fancy_gpt/context_builder.py:94-123 | The loop raises if and only if a readable P0 file exceeds the file limit or start and eligible P0 bytes exceed the budget. |
| ContextProofs.Conserves | src/fancy_gpt/context_builder.py:100-136 | Every candidate ends up once, as artifact or omission, and the total stays the sum of sizes. |
| ContextProofs.PriorityIsolation | src/fancy_gpt/context_builder.py:94-136 | Dropping every selector of rank greater than k leaves the selected files of rank at most k, and success or failure, as they were. |
| ContextProofs.BuildFailsExactly | src/fancy_gpt/context_builder.py:32-123 | When a whole build ends in the security error and when in the size error, as conditions on the request, the manifest and the files. |
| ContextProofs.BuildKeepsAttachments | src/fancy_gpt/context_builder.py:55-92 | Besides files a pack holds exactly the attached contents as they came, but for candidate solutions in a design, and the git diff exactly if asked for, not empty and not a design. |
| ContextPacks.SourcesAreWanted | src/fancy_gpt/context_builder.py:41-69 | The builder looks at exactly the include patterns, with P1 and not in a design, the selectors of each requirement, with its priority, and the attached paths, with theirs, but for the candidate solutions of a design. |
| ContextPacks.HiddenAre | src/fancy_gpt/request_sanitizer.py:34-41 | The names not followed are exactly those of candidate solutions, and those only in a design. |
| ContextPacks.StraysExactly | src/fancy_gpt/context_builder.py:207-256 | The security error comes if and only if the root is unusable, or a selector looked at is malformed or leads out of the root under a name that may be followed. |
| ContextPacks.PackConserves | src/fancy_gpt/context_builder.py:94-136 | A pack is within the request's and the manifest's budget, its total is the sum of its sizes, and each file reached under a name that may be followed, and no other, is in it exactly once, as artifact or omission. |
| ContextPacks.PackIsMaximal | src/fancy_gpt/context_builder.py:100-136 | Each file asked for is omitted as unreadable, too large, binary or undecodable, the first of these that is so, or is whole in the context pack with its soonest priority, or is not required and would not fit in the space left at the end. |
| ContextPacks.PackIsGreedy | src/fancy_gpt/context_builder.py:94-136 | A sound file that is asked for is in the context pack if and only if it fits beside the attachments and the packed files before it, by priority and then by path. |
| ContextPacks.PackIsOrdered | src/fancy_gpt/context_builder.py:94-136 | The files of a pack stand in that order, behind everything attached. |
| ContextPacks.PackBeginsWithAttachments | src/fancy_gpt/context_builder.py:55-92 | A pack begins with the attached contents in their order, but for the candidate solutions of a design, then the git diff if wanted, not empty and no design. |
| ContextPacks.PackMarksSuppressed | src/fancy_gpt/context_builder.py:41-59 | The omissions begin with a mark for suppressed include patterns, exactly if a design has some, and one for each candidate solution of a design. |
| ContextPacks.DesignSeesNoCandidate | src/fancy_gpt/context_builder.py:200-256 | Every file of the root in the context pack of a design is reached by a selector looked at under a name that no attached candidate solution has. |
| ContextPacks.DesignsAreIndependent | src/fancy_gpt/context_builder.py:41-80 | Two designs that differ only in include patterns, git diff and candidate solutions, but not in the names of these, get the same artifacts, total and satisfied requirements, or the same error. |
| ContextPacks.PackMeetsRequirements | src/fancy_gpt/context_builder.py:331-359 | A pack meets every required requirement, by name, as the diff or by content, and lists exactly those it meets. |
| ContextPacks.UnmetExactly | src/fancy_gpt/context_builder.py:331-359 | The requirement error comes if and only if the build would succeed with nothing required and what it would pack does not meet a required requirement. |
| ContextBuilders.Candidates.Add | src/fancy_gpt/context_builder.py:299-303 | The dictionary update in place is the table function of the collection theorems. |
| ContextBuilders.ContextBuilder.Collect | src/fancy_gpt/context_builder.py:207-256 | One selector: the security error exactly if it is refused, otherwise all its files added. |
| ContextBuilders.ContextBuilder.Choose | src/fancy_gpt/context_builder.py:100-136 | The loop with its early exits computes the selection of the theorems. |
| ContextBuilders.ContextBuilder.ValidateRequired | src/fancy_gpt/context_builder.py:331-359 | The error exactly if a required requirement is unmet, otherwise the met ones in order. |
| ContextBuilders.ContextBuilder.Build | src/fancy_gpt/context_builder.py:32-155 | The whole build, with its nested loops, computes the build the theorems on whole packs speak of. |
| BindingProofs.RaisesExactly | src/fancy_gpt/browser/binding.py:19-42 | The tracker has raised if and only if the history shows two new identities or one turn twice in a poll. |
| BindingProofs.CompletesExactly | src/fancy_gpt/browser/binding.py:19-55 | The tracker returns an answer if and only if its identity is the only new one ever seen, the last poll shows it, and its last k + 1 sights show that text, the last k with the stop button hidden. |
| BindingProofs.StreakIsSteady | src/fancy_gpt/browser/binding.py:46-53 | The stable count reaches k exactly if the last k + 1 sights are steady. |
| BindingProofs.LoopIsNeverEarlier | extension/common/site_chatgpt.js:105-151 | With one new turn and no continue button, whenever the JavaScript loop returns the tracker with three stable polls completes at that poll with the same answer. |
| BindingProofs.SteadyTurnsAgree | extension/common/site_chatgpt.js:105-151 | If the turn stays once shown and always looks complete, the two answer at the same polls with the same answer. |
| BindingRuns.ResponseBindingTracker.Observe | src/fancy_gpt/browser/binding.py:19-55 | The method updates the object's four fields and returns or raises as the tracker of the theorems does. |
| BindingReads.LoopReads | extension/common/site_chatgpt.js:111-137 | The JavaScript loop goes the same way on a trace and on the trace without the turns that have several nodes or no text, as the driver reads it. |
| BindingReads.DriverShowsNoDuplicates | src/fancy_gpt/web/sites/chatgpt_browser.py:157-175 | The tracker's error for a turn shown twice cannot arise through the driver. |
| BindingRuns.WaitForResponse | src/fancy_gpt/web/sites/chatgpt_browser.py:177-203 | The poll loop, which reads each page first, ends at the first poll at which the tracker says anything, with what it says. |
| BindingRuns.ExecuteTurn | extension/common/site_chatgpt.js:105-151 | The loop ends at the first poll that returns or is ambiguous, and has reported each change of text. |
| BindingChoice.TextAtIs | extension/common/site_chatgpt.js:39-51 | A turn has a text exactly if one node shows it and that node is not empty. |
| BindingChoice.AmbiguousExactly | extension/common/site_chatgpt.js:111-120 | The loop refuses to guess if and only if the first poll that shows a new turn with a text shows two. |
| BindingChoice.TakesExactly | extension/common/site_chatgpt.js:111-120 | Otherwise it follows a turn if and only if that was the only one in that poll; so what it returns is never one of two. |
| BindingChoice.ReturnsExactly | extension/common/site_chatgpt.js:105-151 | It returns a text if and only if the turn was taken so, the last three polls are settled on the text, and the last poll before them without a continue button read the same text. |
| BindingChoice.ReportsEachChange | extension/common/site_chatgpt.js:137-141 | A poll that reads the turn leaves its text the last one reported, no other poll reports, nothing is taken back, and no two reports in a row agree. |
| BindingChoice.LooksCompleteExactly | extension/common/site_chatgpt.js:81-89 | A text looks complete if and only if it is more than white space and, if its first other character opens a bracket, has as many opening as closing brackets. |
| BindingRuns.ExtensionIsNeverFirst | extension/common/site_chatgpt.js:105-151 | On a trace that reads as plain the driver has completed at some poll no later than the one at which the extension ends. |
| BindingRuns.BothAnswerTogether | extension/common/site_chatgpt.js:105-151 | On a trace that reads as plain, with a turn that stays and looks complete, both end first at the same poll, with the same identity and text. |
| BindingRuns.ReturnsOnlySettled | extension/common/site_chatgpt.js:137-147 | A returned text looks complete, is shown by the last three polls in a row with neither stop nor continue button, and is the last one reported. |
| BindingRuns.ArrivedIsSeen | extension/common/site_chatgpt.js:81-89 | Of a document still arriving, what has arrived looks complete if and only if all its brackets, those in strings counted, are closed. |
| BindingRuns.TruncationSeenExactly | extension/common/site_chatgpt.js:81-89 | The test is true of the whole document and of no proper prefix if and only if the brackets between the outer ones, those in strings counted, balance and never close more than they have opened. |
| BindingRuns.WholeRefusedExactly | extension/common/site_chatgpt.js:81-89 | The whole document is refused if and only if the brackets between the outer ones do not balance. |
| BindingRuns.TruncationIsSeen | extension/common/site_chatgpt.js:81-89 | In particular, of a document without brackets in its strings exactly the whole text looks complete, and no proper prefix. |
| BindingRuns.QuotedBracketFools | extension/common/site_chatgpt.js:81-89 | With a bracket in a string a proper part can look complete and the whole not. |
| Framing.RoundTrip | src/fancy_gpt/bridge/native_host.py:18-40 | Messages the writer can pack, written in sequence, are read back as they were, then a clean end, if and only if each is within the limit. |
| Framing.ReadsUpToLimit | src/fancy_gpt/bridge/native_host.py:18-40 | In general they are read back up to the first one over the limit, which ends in the value error. |
| Framing.Truncated | src/fancy_gpt/bridge/native_host.py:18-29 | A stream cut anywhere yields the messages whose frames are whole, then a clean end exactly at a frame boundary and the end-of-file error otherwise. |
| Framing.SizeOfHeader | src/fancy_gpt/bridge/native_host.py:24-38 | The four length bytes give back the length, in either byte order. |
| Framing.HeaderOrder | src/fancy_gpt/bridge/native_host.py:36-40 | The four bytes of a length, least significant first in one order and last in the other. |
| Framing.ReadsExactly | src/fancy_gpt/bridge/native_host.py:18-33 | A read yields a message exactly if the stream starts with its frame and it is at most 8 MiB long, and the clean end exactly if the stream is empty. |
| Framing.RefusesExactly | src/fancy_gpt/bridge/native_host.py:24-26 | The value error comes exactly if the stream starts with the four bytes of a greater length. |
| Framing.NativeStream.ReadNative | src/fancy_gpt/bridge/native_host.py:18-33 | Reads one frame from the cursor on, and moves the cursor past it. |
| Framing.NativeStream.WriteNative | src/fancy_gpt/bridge/native_host.py:36-40 | Appends one frame, or nothing if the length does not fit in four bytes. |
| Framing.NativeStream.Drain | src/fancy_gpt/bridge/native_host.py:18-33 | Reading until something else than a message comes yields what the theorems speak of. |
| Tunnels.TunnelResolver.Select | src/fancy_gpt/tunnels/resolver.py:53-79 | The loop and the sort in place yield the choice of the theorems. |
| Tunnels.TunnelResolver.SelectNamed | src/fancy_gpt/tunnels/resolver.py:37-51 | The search by name and the checks yield the selection of the two theorems below. |
| Tunnels.NamedExactly | src/fancy_gpt/tunnels/resolver.py:37-51 | A named tunnel is selected, with its health, if and only if it is known, enabled and not disabled, automatic where asked, and not unavailable; and when each of the four errors arises. |
| Tunnels.NamedAreRanked | src/fancy_gpt/tunnels/resolver.py:37-79 | The tunnels that can be selected by name are exactly the automatic choice and its alternatives. |
| Tunnels.ChoosesLeast | src/fancy_gpt/tunnels/resolver.py:53-79 | The choice, reported with its health as not explicit, is the eligible tunnel of least priority number, less 100 if the policy prefers it and plus 200 for each grade of health below healthy, the id breaking ties; the alternatives list every other eligible one. |
| Tunnels.AlternativesInOrder | src/fancy_gpt/tunnels/resolver.py:71-79 | The alternatives stand in the same order. |
| Tunnels.HealthThenPolicy | src/fancy_gpt/tunnels/resolver.py:16-66 | What the numbers decide: a better grade of health outweighs any policy, and a preferred tunnel any of the same grade, while its priority number is less than 100 higher. |
| Tunnels.NothingChosenExactly | src/fancy_gpt/tunnels/resolver.py:69-70 | The error exactly if no tunnel is enabled, not disabled, automatic where asked, and available. |
| Tunnels.DisablingRemoves | src/fancy_gpt/tunnels/registry.py:67-73 | Disabling a tunnel takes it out of the ranking and moves nothing else. |
| Tunnels.FailoverIsNext | src/fancy_gpt/tunnels/resolver.py:71-79 | Disabling the chosen tunnel makes the first alternative the choice and leaves the others as its alternatives. |
| Tunnels.DisablingOthersKeeps | src/fancy_gpt/tunnels/resolver.py:71-79 | Disabling any other tunnel leaves the choice and its health. |
| Sorting.SortedIs | src/fancy_gpt/tunnels/registry.py:58-59 | Sorting with distinct keys yields the same elements in strictly ascending order. |
| Sorting.AscendingUnique | src/fancy_gpt/context_builder.py:94 | An ascending list is determined by its members, which is why collection order cannot show. |

## Left out

- Operating-system file locks, `os.replace` and fsync: mutual exclusion, release on death and atomic replacement of a file are taken as given; disk errors are not modelled.
- JSON and pydantic encoding, uuid freshness and SHA-256: records are datatypes, drawn ids are new, the default session id of a repository is folded into the request's `session` field, the context hash and revision are not part of this model.
- Prompt and response text files, titles, and times that nothing decides on.
- `planner.validate_manifest`: whether it accepts is an input of the step that calls it.
- The per-field validators of the report model: verdicts and names are taken as already case-folded; the mode contract is modelled.
- Optional strings that the code tests for truth: an empty string is the same as none.
- `_resolution_for_status`: `submit_planner` reads the chat its request names, and fails if that is gone, which the model does too; what it does with the chat's conversation is not part of this model.
- `operation_lock` and `chat_operation_lock`: fairness is not modelled, only exclusion.
- WebSocket transport, authentication, `stop` in mid-job, the `workers` and `stats` replies beyond the stale marking they do, and heartbeats beyond the time they set.
- A failing connection of a controller between jobs is one step, `Vanish`; what a controller had not yet been sent is lost with it.
- Glob and fnmatch matching, symbolic links, path normalisation and the text search of `_search_terms`: the files each selector reaches, and under which names, are inputs, as is what the requirements' patterns match.
- UTF-8 decoding: whether a file decodes is an input.
- The page itself, selectors, clicking and the deadline's clock: a poll is the list of assistant turns with their texts; the deadline is the end of the list.
- Decoding a native message as a JSON object: the payload is bytes; the error for a value that is not an object is not modelled.
- Catalog files, composition checks and latencies of tunnels; the reason text of a selection.
- EndToEnd.AnswersCrossTheHub: for one connection of the driver, from `start` on and without `stop`; a new connection is a new controller session.
- `poll_progress` of the bridge driver: it opens a connection of its own and touches no turn.
- Growth.AtMostThreeChanges: counts changes between successive states of a run; the interactive flow makes three at most by the same rank.
- BridgeCounts.ProgressIsRecency: needs a strictly increasing clock; `Progress.EvictsItselfExactly` says what happens to a record under any clock.
