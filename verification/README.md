# The durable core of doot, modelled and proved in Dafny

doot runs a coding agent whose only durable state is a handful of Postgres tables. A crash may fall
between any two commits, an operator may pause, resume, answer, approve, revise or clear at any
moment, and a browser follows along over a stream that drops and reconnects. This project models that
core and proves what it keeps.

- **The run protocol** (`Transcript`, `Store`, `Worker`, `RunMachine`). Every statement or transaction is
  one step; a worker is a program counter; `Crash` and `Boot` are steps; clearing is a transaction with
  its deletes as separate steps. `RunMachine.Inv` ties transcript, run row, board, worker registry and
  open clears together, `RunProofs` proves that every step keeps it, `Requests` and `Effects` say field by
  field what each operator request and each worker step leaves in the tables, and `Guarantees`, `Recovery`, `Conversation` and `ClearRaces` derive what follows, `Promises` and `ShippedRuns` state it for
  every behaviour from a fresh installation, and `ClearCollision` and `ShippedRuns` put the failures
  together step by step (`Walks`). Events are rows of the same tables, recorded at any moment.
- **The same protocol as it runs** (`Database`, `AgentLoop`, `LoopLog`). The tables are fields of a class whose
  methods change them in place; the agent loop, the operator requests and the recovery pass are methods
  with loops over those calls. Between any two durable calls `Interfere` or `Elsewhere` lets everyone
  else take any number of steps. Each durable call is proved to be one step of the protocol, so that
  every state the loop reaches lies on a behaviour from a fresh installation, and each method's contract
  gives the worker's own steps in that behaviour exactly, as a log of what it did (`LoopLog`).
- **The configuration cache** (`ConfigCache`): the generation-stamped snapshot with any number of loads
  and writes in flight, and the store's methods over it.
- **The event stream** (`EventHub`, `EventStream`, `SseFrames`, `SseHandler`): persisted ids, a lossy hub,
  subscribe-then-replay over any number of connections, and the frames on the wire against the event
  stream parser of sections 9.2.5 and 9.2.6 of the WHATWG HTML Standard.
- **Text algorithms with real bounds** (`Truncate`, `ReadFile`, `Collapse`, `EditFile`, `Paths`,
  `ShellQuote`, over `Text`).

## Findings

Where a promise turned out false of the code, the code is kept as it is, an input or a state shows the
failure, and the exact condition under which the promise holds is proved.

- A pause followed by a resume can strand a run: the resume commits after the worker parked the run and
  before its goroutine left the registry, so `start` is refused. A start, and so an answer, a resume, an
  approval, a revision or a first message with its start, gives the run a worker that will read its row if
  and only if no worker of the run is past its last durable read at that moment
  (`Promises.StartDrives`, `Promises.ReleaseDrives`). Otherwise the run stays Running, with no worker and
  idle, through every further step until the process dies (`Promises.StrandedIff`,
  `Promises.ReleaseStrandsIff`). Such a state is reachable (`Recovery.StrandingIsReachable`).
- A clear can fail or leave rows behind. An event that names a run of the project and is recorded after the
  clear deleted the events makes the delete of the runs fail on its key, and nothing else does
  (`ClearRaces.ClearFailsIff`, `ClearRaces.ClearGoesOnIff`). A clear that commits leaves exactly the events
  recorded since, none of which names a run (`ClearRaces.EventsLeft`). Both are reached from every fresh
  installation (`ClearCollision.ClearCanFail`, `ClearCollision.ClearCanLeave`).
- A run whose `done` shipped need not end. A run that is not Done can become so at the next step if and only
  if its own worker stands between the stored result and the last commit (`ShippedRuns.DoneGuard`). A crash
  there, and the restarted run goes on: it runs the calls the model put after `done`, and with none it asks
  the model again (`ShippedRuns.CrashGoesOn`, reached from every fresh installation with any such calls:
  `ShippedRuns.ShippedCanGoOn`). So it does when the last commit fails, which parks the run as being in
  trouble, and the operator resumes it (`ShippedRuns.ResumeGoesOn`). Such a run becomes Done only after
  another `done` has shipped and left a new row (`ShippedRuns.NotDoneWithout`).
- A compacting output buffer can lose bytes without a notice, exactly after a write that compacts and
  until more than `limit` bytes are held again (`Truncate.SilentIff`). At a limit of two, "abcde" is shown as
  "ae" (`Truncate.LosesSilently`).
- A replay query that fails is only logged. It is harmless if and only if every missed row was received,
  was queued since the subscription, or is not published yet (`EventStream.ReplayFailsCoversIff`). A row it
  loses does not arrive on that connection (`EventStream.LostWhileOpen`), and after the connection it can
  still arrive if and only if it is above the browser's resume point (`EventStream.RecoversIff`); one live
  frame is enough to put it below (`EventStream.FailedReplaySkips`, from states that are reachable:
  `EventStream.FailureIsReachable`).
- `repoPath` is not idempotent: "a /" resolves to a path that ends in a space, which resolves to another
  (`Paths.NotIdempotent`); it is exactly on results without outer white space (`Paths.IdempotentIff`).
- `read_file` tears a line that does not fit the byte cap and its next offset skips the rest of that
  line; `ReadFile.WholeLinesIff` says exactly when, and `ReadFile.LosesTheRest` gives a file. A page's
  numbered text has one line fewer than the range in its header exactly when the last line of the page is
  empty and not its only one (`ReadFile.NumberedCountIff`): "a\n\n" shows lines 1-2 of 2 and numbers one
  (`ReadFile.NumbersOneOfTwo`).
- `edit_file` accepts a text that occurs twice when the occurrences overlap (`EditFile.OverlapIsAccepted`).
- A directory does not always sort immediately before its contents, as a comment in `collapse` says. A
  listed directory with something in it does if and only if no listed name goes on from its own name with
  a byte below the slash (`Collapse.ImmediateIff`); "a-b" and "a/c" list as "a", "a-b", "a/c"
  (`Collapse.NotImmediately`). It always sorts somewhere before them (`Collapse.ParentFirst`).
- Code and documentation disagree on clearing: the schema and `messages.go` call the transcript
  append-only and say that clearing flips a flag, and `toolcalls.go` says that the tool log survives
  it. `ClearConversation` deletes messages, runs, events and tool log rows. The model follows the code.

## Assumptions

- One process. Operator requests are serialised: each has made its call to `start` before the next one
  begins. Workers and clears interleave with them freely.
- The model never reuses a call id within a run (`RunMachine.Honest`), and a generated run id is never one
  generated before (`RunMachine.System.used`).
- A store read succeeds or the process stops. A failing write sends the worker to the error path, except
  in parking a run (`pauseRun`, `awaitError`), where writes succeed.
- Row ids are committed in the order they are assigned, and every message names a run, as every writer
  of the table does.
- Events are published in the order of their ids.
- A byte of a file or of output is one character, and a character of a frame is one decoded code point.

## Model

| member | source | states |
|---|---|---|
| Transcript.Ledger | internal/store/runs.go:187-219 | In a well-formed run the calls asked for are the results in order followed by the open calls, with no id twice |
| Transcript.TrailingIsOpen | internal/store/runs.go:190-219 | The recovery query looks only at the newest asking turn, and yet finds exactly the unanswered calls of the run, in order |
| Transcript.InputItems | internal/model/model.go:677-730 | The loop fails exactly when a user turn carries an empty or oversized image, and otherwise yields, turn by turn and in order, items from which each turn is read back |
| Transcript.AssistantItems | internal/model/model.go:696-720 | An assistant turn becomes its reasoning, then its text unless blank, then its calls, and is read back from them |
| Transcript.RequestConveys | internal/model/model.go:677-730 | Read item by item, a request says each turn's role, text, call id, images, reasoning and calls with their own names and arguments, "{}" for blank ones, in the order of the turns |
| Transcript.RequestSaysRows | internal/agent/agent.go:1002-1017 | The same told of the stored rows a request is made from, field by field |
| Store.ContextIs | internal/store/messages.go:185-189 | The model's window is the project's rows and no others, in their order |
| Transcript.TaggedIsRequest | internal/model/model.go:677-730 | Remembering which run an item came from changes no item of the request |
| Transcript.RequestPairs | internal/model/model.go:677-730 | For a well-formed run every call item outside the open ones has one output item and it comes later; open calls have none; no output lacks an earlier call |
| Store.MovesOneTask | internal/store/scratchpad.go:386-427 | On a drafted plan a task number finds the one task that has it, or none does; its number and summary and every other task stay as drafted |
| Worker.WantedIsOpen | internal/agent/agent.go:393-405 | Replaying the pending ids runs exactly the open calls of the newest asking turn, in order |
| WorkerProofs.StepGood | internal/agent/agent.go:230-490 | Each durable step of the loop keeps the run's invariant: well-formed transcript, consistent row, and the fact that belongs to the next program point |
| WorkerProofs.StepGate | internal/agent/agent.go:492-567 | A step writes nothing unless the run is Running, a worker leaves only a run that is no longer Running, and a draft goes on the board exactly when the run is parked for its approval |
| WorkerProofs.ApplyShape | internal/agent/agent.go:494-567 | Every outcome of a tool result answers the current call in one commit, or leaves it open for the next durable step, and a run that leaves the loop is left waiting |
| RunProofs.CommitSchema | internal/store/runs.go:144-185 | A commit for a run that is live, or that leaves an ended row as it is, keeps keys, id order, projects of rows and one live run per project |
| RunProofs.MoveBoards | internal/store/scratchpad.go:247-291 | A worker step keeps drafts and gates in step for every project |
| RunProofs.MoveDriven | internal/agent/agent.go:204-252 | A worker step leaves no Running run without a driver |
| RunProofs.StartKeeps | internal/agent/agent.go:204-226 | A start, granted or refused, keeps the invariant, a refusal being remembered |
| RunProofs.AnswerKeeps | internal/store/runs.go:313-336 | An answer that resumes a run keeps the invariant |
| RunProofs.AnswerPlanKeeps | internal/store/scratchpad.go:302-379 | Approving or revising a plan keeps the invariant: gate lifted, board no longer a draft, one user turn |
| RunProofs.CreateKeeps | internal/store/runs.go:223-246 | Creating a run with its first message keeps the invariant |
| RunProofs.ClearDeleteGood | internal/store/conversation.go:92-110 | One delete of an open clear names exactly the project's rows, and later steps of others do not change that |
| RunProofs.ClearCommitKeeps | internal/store/conversation.go:63-129 | Committing a clear keeps the invariant |
| RunProofs.CrashKeeps | internal/agent/agent.go:897-915 | A crash keeps the invariant at any moment |
| RunProofs.BootKeeps | internal/agent/agent.go:190-202 | Recovery at boot keeps the invariant: every Running run has a start to come |
| RunProofs.NextKeeps | internal/agent/agent.go:128-490 | Every step of the system keeps the invariant |
| RunProofs.Reachable | internal/agent/agent.go:128-490 | The invariant holds in every state of every behaviour from a fresh installation |
| RunTheorems.Touch | internal/agent/agent.go:128-188 | A step not taken by a run's own worker changes its row and rows only as an operator request may |
| RunTheorems.OwnStep | internal/agent/agent.go:230-252 | A step taken by a run's own worker is a step of the loop with that effect on row, rows and program counter, or its exit |
| Requests.ResumeLifts | internal/store/runs.go:155-163 | A resume is taken exactly for a run that is paused or waits for anything but a plan approval; its row is then Running with no reason, no pause pending and no error, the rest of the row, every other run and every message as before, and its start to come |
| Requests.AnswerLifts | internal/store/runs.go:312-336 | An answer is taken exactly by a run that asked; its trimmed text is the one new row, and the run's row becomes the same as after a resume |
| Requests.PauseFlags | internal/store/runs.go:138-148 | A pause sets the flag of the project's Running run and changes nothing else |
| Requests.CreateStarts | internal/store/runs.go:221-246 | A run is created exactly when its project has no live one; its row starts Running with nothing set, with the trimmed text as its first row |
| Requests.ApprovalKeepsPlan | internal/store/scratchpad.go:302-344 | An approval is taken exactly while a draft and its run wait; the plan keeps its title and tasks and is approved against the trimmed commit with no feedback, the run goes on with its pause flag as it was, and one user row says so |
| Requests.RevisionLeavesFeedback | internal/store/scratchpad.go:346-379 | A revision that is not blank is taken exactly while they wait; of the plan only the trimmed feedback is left |
| Requests.RequestBegins | internal/agent/agent.go:180-252 | From any run that waits or is paused, unless its last worker is still on its way out, the request, the start it makes and one look at the row bring a worker to the top of a turn; only a pause pending when a plan was answered parks it instead |
| Effects.CommitWrites | internal/store/runs.go:251-276 | A commit for a run writes its row under the next message id, the run row and project row it names and its tool log rows in order, and nothing else in any table |
| Effects.AskingIsNewest | internal/store/toolcalls.go:91-131 | Tool log rows point at the newest row of the run that asks for tools, if there is one |
| Effects.WorkerRow | internal/store/runs.go:150-185 | No step of a worker moves a run, sets or clears its pause flag or lowers its count; parking, trouble, the two ends and the closed window set state, reason, error and finish time as each is meant to, and only results of tools change them otherwise |
| Effects.StepsAreCounted | internal/store/runs.go:182-185 | In every behaviour a run's step count is the number of steps its workers have counted, over all its workers and through crashes |
| Effects.SpeechStored | internal/agent/agent.go:318-353 | A reply is stored with its text, calls and reasoning; one that broke off with the text before the break, marked interrupted and without calls, or not at all when that is blank |
| Effects.PlanDrafted | internal/store/scratchpad.go:247-291 | A draft with a title, a task and no blank task goes on the board trimmed, its tasks numbered from one and pending, with its result row and the wait for approval; any other leaves nothing |
| Effects.TaskMoved | internal/store/scratchpad.go:386-427 | An update moves the first task with the number and answers its call; without a status or such a task the board stays and the call is told that it did not work |
| Effects.NotesKept | internal/agent/agent.go:529-552 | Notes are stored trimmed, and their call is answered with the tool's text after that |
| Effects.DoneShips | internal/agent/agent.go:581-724 | A refused done answers its call with the reason and goes on, a failed push answers it and waits in trouble, a push leads to the last writes with the tool's text |
| Effects.OpenCallsFirst | internal/agent/agent.go:278-291 | A worker runs the open calls of the newest asking turn, and goes on to the model exactly when none is open |
| Effects.LooksDecide | internal/agent/agent.go:236-245 | Wherever a worker looks for a pause, one that is pending parks the run; nothing is written by looking |
| Effects.ToolKept | internal/agent/agent.go:413-455 | The tools a call ran are logged, and its own result is what is applied next |
| Effects.PlainResult | internal/agent/agent.go:462-470 | An ordinary tool, and any that failed, answers its call with its text and nothing else changes |
| Effects.QuestionAsked | internal/agent/agent.go:497-502 | A question answers its call with its text and leaves the run waiting for an answer, in one commit |
| Effects.NothingToApply | internal/agent/agent.go:504-560 | A control tool that hands over nothing of its own kind writes nothing and takes the error path |
| Effects.ShippedWrites | internal/agent/agent.go:702-724 | After a push the board is emptied, then the call answered, then the run ended, in three commits |
| Guarantees.EveryRequestIsPaired | internal/agent/agent.go:293-308 | In every behaviour every primary model request pairs each function call with one later output and has no output without an earlier call; of earlier runs only the calls after a shipped `done` lack one |
| Promises.PauseHolds | internal/agent/agent.go:163-178 | After a pause request commits the run starts at most one more model call or tool until a resume or an answer, wherever its worker was, through crashes, restarts, approvals and clears |
| Guarantees.PauseBounds | internal/agent/agent.go:230-252 | From any state with the flag set, the actions started are paid for by a worker that was already past its check; with none, nothing starts, whether or not the run is cleared meanwhile |
| Guarantees.PauseSets | internal/store/runs.go:144-148 | A pause request sets the flag of the project's Running run, so the bound holds from its commit |
| Guarantees.FlagStep | internal/store/runs.go:155-163 | A pause flag that is set is cleared by a step exactly when it is a resume of the run or an answer to it |
| Guarantees.DraftIffGated | internal/store/scratchpad.go:247-291 | In every reachable state a board is a non-empty draft exactly while the project's one live run waits for plan approval |
| Promises.GateStands | internal/store/scratchpad.go:293-379 | Until an approval or a revision, a gated run starts no model call and no tool, its row and rows do not change, and its draft stands |
| Promises.LiveIsKept | internal/store/conversation.go:57-84 | No step, and no clear in particular, deletes the row of a live run |
| Recovery.OneResultEach | internal/store/runs.go:187-219 | In every reachable state the results of a run are a prefix of its calls, one each |
| Promises.AnsweredStaysDone | internal/agent/agent.go:278-291 | A call whose result row is durable is never started again |
| Promises.OpenGrows | internal/agent/agent.go:337-349 | The number of unanswered calls grows only when a worker stores a model's turn |
| Promises.FinalTurnStands | internal/store/runs.go:278-310 | Once the final text turn is stored the run starts nothing more, and gets no further row while its row exists |
| Recovery.TerminalCloses | internal/agent/agent.go:266-276 | A worker at the top of the loop ends such a run in two steps, without a model call |
| Recovery.PendingPauseParks | internal/agent/agent.go:243-245 | With a pause pending it parks instead, and the worker leaves |
| Promises.StartDrives | internal/agent/agent.go:204-226 | The start of a Running run gives it a worker that will read its row exactly when no worker of it is past its last durable read at that moment |
| Promises.ReleaseDrives | internal/agent/agent.go:126-226 | The same for a first message, an answer, a resume, an approval or a revision and the start it makes, told at the request |
| Recovery.OneWorker | internal/agent/agent.go:204-226 | No two goroutines ever drive the same run |
| Recovery.RequestDrivesIff | internal/agent/agent.go:126-226 | From any state in which such a request succeeds its start can follow, with the same exact condition |
| Promises.BootDrives | internal/agent/agent.go:190-202 | After a boot the first start of a Running run gives it a worker, whatever happened in between |
| Recovery.DrivenIff | internal/agent/agent.go:190-226 | In every reachable state a Running run with no start to come has a live worker exactly when the process is up and no start of it came while its worker was past its last durable read, since the process came up |
| Promises.StrandedIff | internal/agent/agent.go:204-211 | A Running run is stranded by its start, Running with no worker that reads its row in every later state of the process and starting nothing, exactly when its worker was past its last durable read |
| Promises.ReleaseStrandsIff | internal/agent/agent.go:126-211 | The same for a request and its start |
| Recovery.PauseResumeCanStrand | internal/agent/agent.go:165-226 | From every state with a worker about to read its Running row, five steps of pause and resume strand the run |
| Recovery.StrandingIsReachable | internal/agent/agent.go:165-226 | A stranded run is reachable from every fresh installation without a crash |
| Recovery.RowsStayOk | internal/store/migrations/001_init.sql:86-105 | Every reachable row has a reason exactly when it waits and a finish time exactly when it ended, none has failed, and a project has at most one live run |
| Promises.EndedForever | internal/store/runs.go:144-185 | The row and rows of an ended run never change again while the row exists |
| Promises.GoneForever | internal/store/conversation.go:101 | A cleared run row never comes back |
| Recovery.DoneIff | internal/agent/agent.go:702-724 | A run becomes Done exactly by its own worker's last commit of a shipped `done` |
| ShippedRuns.DoneGuard | internal/agent/agent.go:702-724 | A run that is not Done can become so at the next step exactly when its own worker stands between the stored result of a shipped `done` and the last commit |
| ShippedRuns.NotDoneWithout | internal/agent/agent.go:702-724 | A run that is not Done and has no worker there becomes Done only after another shipped `done` has stored its result, and so not without a new row, through any crashes, restarts and requests |
| ShippedRuns.CrashGoesOn | internal/agent/agent.go:190-291 | From every state with a worker there and no pause pending: crash, boot, start, three reads, and then the run's first open call starts, or with none a model call |
| ShippedRuns.ResumeGoesOn | internal/agent/agent.go:866-890 | The same when the last commit fails, the run is parked in trouble and the operator resumes it |
| ShippedRuns.ShipEndIsReachable | internal/agent/agent.go:581-725 | From every fresh installation, for any calls after a first `done`, such a state is reached with exactly the others unanswered |
| ShippedRuns.ShippedCanGoOn | internal/agent/agent.go:702-724 | So a shipped run that goes on with those calls, or with the model, is reached from every fresh installation |
| Promises.UnguardedIsSafe | internal/store/runs.go:176-185 | The two updates without a state guard are only ever issued against a Running row |
| Conversation.ClearKeepsKeys | internal/store/conversation.go:86-110 | In the order written every delete keeps every foreign key, but for the delete of the runs, which does exactly when no event naming a run of the project came after the delete of the events |
| Conversation.RunsFirstIff | internal/store/conversation.go:86-102 | Deleting runs first would keep the keys exactly when no row of another table names a run of the project |
| Conversation.ClearRows | internal/store/conversation.go:43-55 | A clear leaves no message, run or log row of the project, of its events only those recorded since it deleted them, everything of other projects, an empty board, and the notes and sandbox as they were |
| Conversation.ClearExcludesRuns | internal/store/runs.go:221-246 | While a clear is open no run of its project is live |
| Conversation.ClearIsAtomic | internal/store/conversation.go:63-129 | Whatever ran between its deletes, a clear that commits does what one atomic clear would do at that moment, but for the events recorded since it deleted the events, none of which names a run |
| ClearRaces.ClearGoesOnIff | internal/store/conversation.go:86-110 | In every reachable state an open clear can take its next delete unless it is about to delete the runs and a late event names one |
| ClearRaces.ClearFailsIff | internal/store/conversation.go:92-110 | A clear fails at its delete of the runs exactly when an event of the project that names a run was recorded since it deleted the events |
| ClearRaces.EventsLeft | internal/store/conversation.go:63-129 | A clear that commits leaves exactly the project's events recorded since it deleted the events, and none names a run |
| ClearCollision.ClearCanFail | internal/store/conversation.go:99-101 | From every fresh installation a clear can be made to fail, with no crash |
| ClearCollision.LeavesEvent | internal/store/conversation.go:92-129 | From every moment between the deletes of events and messages at which no late event names a run, one more event without a run survives the commit |
| ClearCollision.ClearCanLeave | internal/store/conversation.go:92-129 | From every fresh installation a clear can commit and leave an event of its project behind |
| RunProofs.EmitKeeps | internal/store/events.go:52-78 | Recording an event keeps the invariant at any moment, open clears included |
| Database.AnsweredRow | internal/store/runs.go:207-217 | A call counts as answered exactly when some result row of the run names it |
| Database.Database.ContextMessages | internal/store/messages.go:184-189 | The query's rows are the model's window of the project |
| Database.Database.NewestCalls | internal/store/runs.go:190-206 | The newest row that asks for tools is found from the end of the table |
| Database.Database.TrailingToolCalls | internal/store/runs.go:190-219 | The loop returns the missing calls of the newest asking turn; for a well-formed run, all unanswered calls |
| Database.Database.FinishRun | internal/store/runs.go:176-180 | Ends the run with its cause, whatever its state was; a run with no row changes nothing |
| Database.Database.AppendMessage | internal/store/messages.go:157-182 | One row more, with the next id, in the run's project |
| Database.Database.AppendToolResultAndAwait | internal/store/runs.go:248-276 | The result and the wait land together, or neither does |
| Database.Database.FinishIfTerminalAssistant | internal/store/runs.go:278-310 | Ends a Running run exactly when its newest row is a final text turn |
| Database.Database.AppendAnswerAndResume | internal/store/runs.go:312-336 | The answer and the resume land together, or neither does |
| Database.Database.WritePlan | internal/store/scratchpad.go:245-291 | Draft, result row and gate land together; a draft with a blank title, no task or a blank task, or a run not Running, changes nothing |
| Database.Database.UpdateTask | internal/store/scratchpad.go:386-427 | Moves the first task with the number, with the result row, or changes nothing when the status is unknown, the board is empty or has no such task |
| Database.Database.AppendEvent | internal/store/events.go:52-78 | One event row with the next id, or nothing when the project or the run it names has no row |
| Database.Database.ActiveRun | internal/store/runs.go:107-112 | Finds a live run of the project exactly when there is one |
| Database.Database.RequestPause | internal/store/runs.go:144-148 | Flags the project's Running run, and reports one exactly when there is one |
| Database.Database.ResumeRun | internal/store/runs.go:155-163 | Resumes the project's run when it is paused or waits for anything but a plan approval; otherwise changes nothing |
| Database.Database.ApprovePlan | internal/store/scratchpad.go:302-338 | Succeeds exactly when a draft stands and a run waits for it, and keeps a pending pause |
| Database.Database.RevisePlan | internal/store/scratchpad.go:343-379 | As above for feedback that is not blank, leaving only the feedback on the board |
| Database.Database.CreateRunWithMessage | internal/store/runs.go:221-246 | A run and its first message, or nothing when the project has a live run |
| Database.Database.DeleteRuns | internal/store/conversation.go:101 | Removes the project's runs and counts them |
| Database.Database.ClearConversation | internal/store/conversation.go:63-129 | Refuses exactly when a run is live; otherwise, alone, does the whole clear, every delete leaving the keys satisfied, and returns the counts |
| AgentLoop.Service.constructor | internal/agent/agent.go:105-114 | A new process stands where earlier ones left the tables |
| AgentLoop.Service.Own | internal/agent/agent.go:230-252 | A worker that has decided to go on owns a Running row of a known project |
| AgentLoop.Service.Tick | internal/agent/agent.go:230-490 | A durable write that is the change of a step of the loop makes that step part of the history |
| AgentLoop.Service.PauseRun | internal/agent/agent.go:830-841 | Parking is one step of the worker and ends at the top of the loop or at the worker's exit |
| AgentLoop.Service.AwaitError | internal/agent/agent.go:866-890 | The error path is one step and ends with the worker on its way out |
| AgentLoop.Service.Shipped | internal/agent/agent.go:702-724 | The last writes of a shipped `done` are exactly three steps of the worker: board, result row, end of the run |
| AgentLoop.Service.ApplyControlStep | internal/agent/agent.go:494-567 | The worker's own steps for one result, by tool and outcome; unusable exactly when a control tool's display is not its own; the loop is told the run left its hands exactly on a question, a plan or a `done` that was not refused |
| AgentLoop.Service.ShipStep | internal/agent/agent.go:581-725 | A refusal is one step with an ordinary result, a failed push one step that makes the run wait, a push one step and then the three last writes |
| AgentLoop.Service.ExecuteCalls | internal/agent/agent.go:387-490 | The worker's own steps are those of the wanted calls one after another, from the first on, until one stops the loop; or one failure before the first |
| AgentLoop.Service.ExecuteOne | internal/agent/agent.go:402-488 | The worker's own steps for one call: pause check, tool, result, the commits of that result, and a look at the row, in that order and no other; or the check and the park; or the failed tool |
| AgentLoop.Service.ToolReturned | internal/agent/agent.go:415-425 | A tool that failed is reported as stopped exactly when a pause is pending or it was cancelled, and is an error otherwise |
| AgentLoop.Service.Advance | internal/agent/agent.go:255-384 | The worker's own steps in one turn: the restart window, then the pending calls or a model call and what its reply asks for; it fails, ends or goes on as that log says |
| AgentLoop.Service.FindPending | internal/agent/agent.go:278-291 | Unanswered calls are run before the model is asked; with none, it is asked |
| AgentLoop.Service.Answered | internal/agent/agent.go:315-346 | Each kind of reply takes its own steps: a lost stream keeps what was said and parks on a pending pause or fails, an empty reply fails, a full one is stored and counted before the run ends or its calls are run |
| AgentLoop.Service.Run | internal/agent/agent.go:228-252 | The worker's own steps over its life are those of its turns, each but the last going on, and then of the way it ended; the tables are where a behaviour of the protocol left them, and a worker that left is out of the registry |
| LoopLog.RunsTheWanted | internal/agent/agent.go:393-405 | The calls such a log starts are a prefix of the wanted ones in order; all of them exactly when every one was reached and the last not met by a pause |
| LoopLog.ResultsFirst | internal/agent/agent.go:387-490 | In such a log a call's result is stored before the next call is even checked for |
| LoopLog.AlwaysChecked | internal/agent/agent.go:230-252 | In the log of a worker's whole life every tool start directly follows a look for a pause, and every model call follows the read of the row at the top of its turn |
| AgentLoop.Service.Start | internal/agent/agent.go:204-226 | Refuses exactly when a worker is registered |
| AgentLoop.Service.Recover | internal/agent/agent.go:190-202 | One pass starts every run left Running, and each of those starts gives its run a worker at the top of the loop |
| AgentLoop.Service.Submit | internal/agent/agent.go:126-161 | Refuses, changing nothing, exactly for a blank text or a live run that waits for no answer; otherwise it commits an answer or a new run and then makes its start |
| AgentLoop.Service.Pause | internal/agent/agent.go:163-178 | Reports a run exactly when one is Running |
| AgentLoop.Service.Resume | internal/agent/agent.go:180-188 | Resumes, and then makes the start, exactly when a run is resumable |
| AgentLoop.Service.ApprovePlan | internal/agent/agent.go:917-934 | Approves and starts, or changes nothing because no run could be approved |
| AgentLoop.Service.RevisePlan | internal/agent/agent.go:936-947 | Revises and starts, or changes nothing because nothing could be revised |
| ConfigCache.NextKeeps | internal/store/appconfig.go:234-303 | Every step of any load or write keeps what snapshots and in-flight rows show |
| ConfigCache.SnapshotIsCurrent | internal/store/appconfig.go:234-283 | In every behaviour a cached snapshot shows every write whose invalidation has completed |
| ConfigCache.LoadIsCurrent | internal/store/appconfig.go:290-303 | A load returns the table as of some write at or after every write invalidated before the load was called |
| ConfigCache.ReadsOwnWrite | internal/store/appconfig.go:240-248 | The newest write of a key, once invalidated, is what every later load returns for it |
| ConfigCache.InstalledIff | internal/store/appconfig.go:260-276 | A load's rows are cached exactly when no invalidation completed between its begin and its put |
| ConfigCache.HitIff | internal/store/appconfig.go:234-258 | A load is answered from memory exactly when some load put its rows since the last invalidation and at most thirty seconds ago, and otherwise goes on to the table |
| ConfigCache.SnapshotWasPut | internal/store/appconfig.go:226-232 | A snapshot was put at the time it carries, so one that still hits is bounded by the limit even without an invalidation |
| ConfigCache.Settings.LoadConfig | internal/store/appconfig.go:290-303 | With others interfering between its steps, what it returns is what its load in the protocol returns and shows every write invalidated before it began; it fails only when the table cannot be read |
| ConfigCache.Settings.SetConfig | internal/store/appconfig.go:469-484 | On success the write is in the table's history and its invalidation has completed; a value with no encoding changes nothing |
| ConfigCache.Settings.SetConfigValues | internal/store/appconfig.go:486-517 | All values in one write, or none; no values at all is success without an invalidation |
| EventHub.Events.AppendEvent | internal/store/events.go:52-78 | The row gets an id above all earlier ones |
| EventHub.Events.EventsSince | internal/store/events.go:80-109 | The first rows of the project above the id, at most the limit, 500 when none is given |
| EventHub.Events.DeleteEvents | internal/store/conversation.go:99 | Exactly the project's rows go, the others keep their order |
| EventHub.Hub.Subscribe | internal/events/hub.go:56-65 | An empty queue under an id never used before; other queues untouched |
| EventHub.Hub.Unsubscribe | internal/events/hub.go:67-76 | The queue is gone; doing it twice changes nothing more |
| EventHub.Hub.Publish | internal/events/hub.go:78-95 | Every queue with room gets the frame last, every full one loses it, and the losses are counted |
| EventStream.NextKeeps | internal/web/sse.go:49-119 | Every append, publish, connection step, receipt, disconnection and deletion keeps the stream's invariant: ids, queue order, and no row out of reach before it is published |
| EventStream.SafeIff | internal/web/sse.go:49-119 | A step keeps a row due within the browser's reach exactly when it is not a publish of that row to a full live queue, or a cut or failed replay without it, with the row neither received nor on its way |
| EventStream.NoGap | internal/web/sse.go:49-119 | Over any connections, a row owed that no such step lost is received, written, queued or unpublished on a settled connection, and else received or above the resume point |
| EventStream.ResumePointIsHonest | internal/web/sse.go:26-33 | A row owed at or below the browser's resume point has been received unless such a step lost it |
| EventStream.PublishCoversIff | internal/events/hub.go:29-35 | A publish on a live connection leaves nothing out exactly when the queue has room or the row is not due, received, or written |
| EventStream.ReplayCoversIff | internal/web/sse.go:102-119 | A replay leaves nothing out exactly when every missed row past the limit was received, queued or is unpublished |
| EventStream.ReplayFailsCoversIff | internal/web/sse.go:110-114 | A failed replay leaves nothing out exactly when every missed row was received, queued or is unpublished |
| EventStream.LossIsReal | internal/web/sse.go:49-119 | After a step that loses a row it is published, not received and nowhere on its way |
| EventStream.LostWhileOpen | internal/web/sse.go:79-98 | A lost row does not arrive on the connection that lost it |
| EventStream.RecoversIff | internal/web/sse.go:102-119 | When a connection has ended, a row due and not received can still arrive exactly when it is above the resume point |
| EventStream.FailedReplaySkips | internal/web/sse.go:110-114 | After a failed replay one live frame makes a missed row unrecoverable |
| EventStream.FailureIsReachable | internal/web/sse.go:49-119 | From the first connection on, a state is reached in which a failed replay loses a row |
| SseFrames.WriteFrame | internal/web/sse.go:126-142 | The text written is the lines of the frame, an id line only for a positive id |
| SseFrames.RoundTrip | internal/web/sse.go:126-142 | For any frames and comments the browser dispatches each frame's type and payload, in order and nothing else, and its last event id is that of the last frame with one |
| SseFrames.RoundTripIff | internal/web/sse.go:133-140 | The round trip holds exactly when no type has a line break and no data a carriage return |
| SseFrames.IdReadsBack | internal/web/sse.go:103-108 | An id written in decimal is read back as itself |
| SseHandler.Server.Publish | internal/agent/agent.go:960-973 | One event is one append and one publish step: the row is stored and its frame offered to every queue, or neither |
| SseHandler.Server.PublishLive | internal/agent/agent.go:974-978 | A frame that is never stored is one step that offers it, with no id, to every queue |
| SseHandler.Server.Elsewhere | internal/web/sse.go:49-99 | Any number of appends, publishes, unstored frames, clears and receipts leave the handler's connection where it is |
| SseHandler.Server.HandleEvents | internal/web/sse.go:34-99 | The response begins with the comment "connected" and ends there when the lookup fails; without a project it says so and replays nothing; with one and a query that answers there is one replay step and the first 500 missed rows follow, with a query that fails none; after that come only frames taken from this client's queue in order, each with its own id, type and data, and heartbeats |
| SseHandler.Server.Replay | internal/web/sse.go:102-119 | A replay step with the first 500 missed rows written in id order with their own ids, types and data, or a failed one with nothing written |
| SseHandler.Server.Open | internal/web/sse.go:68-85 | What comes between the first comment and the live frames, by the lookup's and the query's outcome |
| SseHandler.Server.Turn | internal/web/sse.go:79-98 | One turn is a delivery step that writes the oldest queued frame and takes it, or a heartbeat and no step |
| Truncate.BoundedBuffer.Write | internal/tools/truncate.go:93-104 | Everything is consumed and counted, and at most twice the limit is held |
| Truncate.BufferRefines | internal/tools/truncate.go:81-104 | However the stream is cut into writes, the buffer holds all of it, or a text with the stream's first and last half-limit bytes |
| Truncate.ShownEnds | internal/tools/truncate.go:63-79 | A stream within the limit is shown unchanged; when more than the limit is held, a beginning and an end of the whole stream are shown with the notice of what is missing between: each the whole half of the limit, or cut right before that half's last newline, or right after its first |
| Truncate.BoundedBuffer.String | internal/tools/truncate.go:106 | The same of the buffer, whatever was written to it in whatever pieces |
| Truncate.LostIff | internal/tools/truncate.go:95-104 | Bytes are lost exactly when the stream is longer than twice the limit |
| Truncate.SameEnds | internal/tools/truncate.go:64-106 | With more than the limit held, what is shown has the head and tail that clipping the whole stream would have |
| Truncate.ChunkingIsInvisible | internal/tools/truncate.go:81-106 | Two ways of writing one stream show the same ends |
| Truncate.SilentIff | internal/tools/truncate.go:95-106 | Bytes are lost with no notice exactly after a write that compacts, and until more than the limit is held again |
| Truncate.LosesSilently | internal/tools/truncate.go:95-106 | A limit and a write that lose bytes with no notice |
| Truncate.NumberLines | internal/tools/truncate.go:112-125 | The loop numbers every line to one width |
| Truncate.NumberedAligns | internal/tools/truncate.go:108-125 | Line i of the numbered text is the number of line i in a column of one width, then line i of the text |
| Text.DigitsDecimal | internal/tools/truncate.go:112-125 | Numbers are written in base ten without leading zeros |
| Text.TrimIs | internal/tools/paths.go:24-31 | Trimming cuts white space only, and all of it at both ends |
| ReadFile.Execute | internal/tools/read.go:43-133 | Each refusal exactly on its condition; otherwise one page from the offset |
| ReadFile.PageRange | internal/tools/read.go:99-116 | Every page has at least one line, stays in the file, and its range counts the lines of its body |
| ReadFile.PageFills | internal/tools/read.go:86-107 | A page is all the lines asked for, at most 2000, when they fit the byte cap; otherwise it is a beginning of them within the cap, and when it is whole lines one more would have reached the cap |
| ReadFile.LinesRejoin | internal/tools/read.go:92 | The lines of a file, joined again, are the file but for one newline at its end |
| ReadFile.ShowsNumbers | internal/tools/read.go:113-117 | Each line of a page is shown with its own number in the file, in a column as wide as the largest |
| ReadFile.WholeLinesIff | internal/tools/read.go:99-107 | A page is whole lines of the file exactly when its first lines fit the byte cap |
| ReadFile.TornLine | internal/tools/read.go:99-111 | A line over the byte cap is cut inside, and the next offset is that of the line after it |
| ReadFile.LosesTheRest | internal/tools/read.go:99-111 | A file of which following the offsets never shows the rest of a line |
| ReadFile.FollowCovers | internal/tools/read.go:108-111 | Whatever limits are asked for, following the offsets ends, without gap or overlap, at the end of the file |
| ReadFile.FollowShowsEveryLine | internal/tools/read.go:99-111 | When every line is shorter than the cap, the pages show every line once, in order |
| ReadFile.FollowReadsFile | internal/tools/read.go:86-111 | From offset 0, the file's own lines |
| ReadFile.NumberedCountIff | internal/tools/read.go:113-117 | The numbered text of a page has as many lines as the header's range, or one fewer, which it has exactly when the last line of the page is empty and not its only one |
| ReadFile.NumbersOneOfTwo | internal/tools/read.go:86-117 | A file whose page says lines 1 to 2 of 2 and numbers one |
| Collapse.CollapsePaths | internal/tools/read.go:317-377 | The listing is strictly sorted, has an entry for exactly the prefixes within the depth, with the directories flagged and each count the number of deeper paths under it |
| Collapse.ListingText | internal/tools/read.go:315-377 | Read off the text of the paths: a name is listed exactly when some path is it or goes on from it with a slash, within the depth; it is a directory exactly when one goes on or ends in a slash; its count is of the paths that go deeper than the listing below it |
| Collapse.AddPath | internal/tools/read.go:333-359 | One path adds its own entry or its boundary and every ancestor, and changes no other entry |
| Collapse.ListingIsUnique | internal/tools/read.go:361-377 | Given paths have one listing |
| Collapse.OrderIndependent | internal/tools/read.go:361-377 | The order of the paths does not matter |
| Collapse.EveryPathOnce | internal/tools/read.go:315-359 | For a file list, file entries plus counts are the number of paths |
| Collapse.ParentFirst | internal/tools/read.go:365-367 | A directory sorts before everything inside it |
| Collapse.ImmediateIff | internal/tools/read.go:365-367 | A listed directory with something inside is followed at once by an entry inside it exactly when no listed name goes on from its name with a byte below the slash |
| Collapse.NotImmediately | internal/tools/read.go:365-367 | The listing of "a-b" and "a/c" has "a-b" between "a" and "a/c" |
| EditFile.CountIsMaximum | internal/tools/write.go:189 | The count is the size of the largest set of occurrences that do not overlap |
| EditFile.RefusedIff | internal/tools/write.go:186-202 | Not found exactly without an occurrence; ambiguous exactly with two that do not overlap and no request for all |
| EditFile.EditedIff | internal/tools/write.go:175-209 | What is not refused is edited: exactly a text to find that occurs and is to be changed, in a file that is not too large, where all places are asked for or no two of them stand apart |
| EditFile.ShownCount | internal/tools/write.go:189-209 | The counts reported are the size of the largest set of places that stand apart |
| EditFile.HintIff | internal/tools/write.go:192-199 | What is said of a text that does not occur: that it has a tab, or else that it would occur without the white space at its ends |
| EditFile.OverlapIsAccepted | internal/tools/write.go:189-202 | Two overlapping occurrences are accepted |
| EditFile.SingleEdit | internal/tools/write.go:204-209 | An accepted single edit replaces the leftmost occurrence and nothing else, and asking for all does the same |
| EditFile.EditAll | internal/tools/write.go:204-209 | Everything between the counted occurrences is kept, the new text stands at each, and the length changes by the count times the difference |
| Paths.ResolvedIff | internal/tools/paths.go:24-44 | A path is accepted exactly when the components it names start with those of its base, and the result is those components, all proper |
| Paths.WorkDirIff | internal/tools/paths.go:58-75 | A working directory is refused exactly when it is relative and leaves the repository |
| Paths.CleanFixed | internal/tools/paths.go:32-40 | Cleaning a path of proper components changes nothing |
| Paths.CleanSkips | internal/tools/paths.go:32-40 | An empty component and "." change nothing, anywhere in a path |
| Paths.CleanCancels | internal/tools/paths.go:32-40 | A proper component and ".." after it cancel, anywhere in a path |
| Paths.CleanTop | internal/tools/paths.go:32-40 | ".." at the root is dropped |
| Paths.AcceptedIff | internal/tools/paths.go:24-44 | Read from its end, an absolute path is accepted exactly when it names something in the workspace, and a relative one exactly when it does not climb out of the repository or the names after the climb lead back in; the result is the place so named |
| Paths.WorkDirAcceptedIff | internal/tools/paths.go:58-75 | The same of a working directory, which may be anywhere when it is absolute |
| Paths.ParentIff | internal/tools/paths.go:36-41 | "../x" is accepted exactly when x is "repo" |
| Paths.UnderIff | internal/tools/paths.go:33-41 | The textual containment test is containment of components |
| Paths.IdempotentIff | internal/tools/paths.go:24-44 | Resolving a result gives it back exactly when it has no outer white space |
| Paths.NotIdempotent | internal/tools/paths.go:24-44 | A result that resolves to another path |
| Paths.DisplayedPathIff | internal/tools/paths.go:46-56 | A displayed path resolves to the path it displays exactly when it has no outer white space |
| Paths.ShownAs | internal/tools/paths.go:46-56 | A path in the repository is shown relative to it, the repository itself as ".", any other in full |
| ShellQuote.RoundTrip | internal/tools/tools.go:216-223 | Any arguments, quoted and put side by side, are read by the shell as exactly those arguments |
| ShellQuote.ReadQuote | internal/tools/tools.go:221-223 | One quoted value is one token, empty or not, whatever is in it |
| ShellQuote.LineIsInjective | internal/tools/tools.go:221-223 | No two argument lists share a command line |

## Left out

- AgentLoop.Service.Run: bounds the number of turns by a parameter, because the loop need not end; the contract covers a process that dies at any turn.
- RunMachine.MayEmit: an event that names a run whose delete is not yet committed waits for that clear in the database; here it is not enabled meanwhile.
- AgentLoop.Service.Interfere, AgentLoop.Service.Elsewhere: have empty bodies; only their contracts, what others may have done meanwhile, are used.
- Worker.Ship: takes the outcome of the worktree check, the review gates, the push and the pull request as a value; their wording and the review loops are not modelled.
- Worker.ApplyControl: shortens fixed texts of result rows and user turns, and leaves out awaiting payloads, the plan's spec fields, token counts, message kinds and tool displays.
- Store.AwaitHuman: keeps a fixed cause for a failed turn instead of the error's text.
- ConfigCache.Cache.Invalidate: does not wrap the 64-bit generation.
- EventStream.NoGap: the browser's first connection starts from nothing, so rows published between rendering the page and that connection are not owed.
- Store.EventRow: names the run of an event and not its payload, and `EventHub.Row` the payload and not the run: the clear needs the one and the stream the other.
- EventHub.Hub.Publish: closing a channel is removing its queue; the handler is the only one to remove its own.
- SseHandler.Server.HandleEvents: serves a bounded number of turns; flushing and headers are not modelled.
- ReadFile.Execute: leaves the header line and the wording of notices out of the text; the numbers in them are the page's fields.
- ShellQuote.Lex: decides nothing about double quotes, operators, expansions, comments or unquoted newlines, which quoted lines never contain outside quotes.
- Paths.Clean: models lexical cleaning of rooted paths only; the resolver never cleans another kind.
- Time is not modelled beyond the cache's age limit: timestamps are present or absent, retries and back-off are one model call.
- Cancelling a stream or a tool on pause only ends it sooner; replies and tool results are arbitrary values.
- HTTP handlers, templates, login, provisioning, sandbox status, git commands, the model transport, the review loops, diffs, screenshots and background processes are not modelled.
