# What the agent and its postmen keep

This project models the parts of rekuest whose correctness depends on interleavings, and proves what they promise:

- **Delivery of an agent's reports** (`Frames`, `Retention`, `Sender`, `Memory`, `Bookkeeping`, `Delivery`, `DeliveryProof`,
  `WireOrder`, `Release`, `DeliveryProgress`, `Agent`). A numbered frame `(session, pos)` is retained in memory and in the
  journal file until a cumulative acknowledgement covers it. `Delivery` is a state machine of the agent, its file, its
  sender, one lossy first-in first-out channel for each connection, and a server that takes a session's next position, skips
  what it has and acknowledges cumulatively. Connections drop in the middle of a send, processes are killed and started
  again, and an Assign for a finished task gets its reports again out of turn. The classes `RetainedFrames`,
  `WebsocketSender` and `RekuestAgent` update their fields in place; their methods are proved against the functions the
  machine steps by.
- **Resume and inquiries** (`ResumeJournal`, `Inquiries`, `CallKeys`). What a dead process recorded is added to the
  server's resume journal, the children it made are found again by their keys, and what an Init asks about is never
  answered against what was re-sent.
- **Events of calls over GraphQL** (`Merge`, `Watch`, `WatchSound`, `WatchProof`, `WatchGap`, `Postman`, `WatchAll`). A change
  feed whose subscription starts at an unknown point is merged with reads of the task's history that may be old when they
  return, or fail. `WatchSound` is about all runs of one call, `WatchProof` and `WatchGap` about order and gaps. `WatchAll` is
  many calls that share the feed, its watcher and the postman's maps; each of them runs as it would alone.
- **Events of calls over the socket, and cancellation** (`Caller`, `Calls`, `Cancellation`). `Calls` is many calls over the maps
  that they share. The methods of both postmen's classes are proved against the functions that `Calls` and `WatchAll` step by.
- **Persisted states** (`StateFlush`) and **the reconnect loop** (`Reconnect`).

`dafny verify dfyconfig.toml` checks the whole project.

## What is assumed

- Code between two `await`s is one step; `put` on an unbounded asyncio queue does not suspend. `Queue.join` is woken when the
  count of unfinished items reaches 0 and does not look at it again. Both are the standard library's.
- Numbering, retention and hand-off of a frame are one step (`docs/journal.md:45`); the runtime that does this is not part of
  this model. A session id is never minted twice.
- Reads and writes of the SQLite files succeed and retained frames are readable. Sessions are strings ordered as text, creation
  times are real numbers.
- A new session is created later than all earlier ones; only `FirstSendsRise` uses this.
- The server's resume journal holds what it received of the task when it sends an Assign.
- Which mirror events end a stream is part of the message definitions, which are not in the repository; an event carries a flag.
- Each call has its own task and its own reference.

## Where the code and its documentation differ

- *Nothing is sent between REGISTER and INIT* (`docs/journal.md:134`). An Init still waiting in the inbound queue when its
  connection drops is handled after the next connection registered, and releases that one (`rekuest/agents/agent.py:433-448`,
  `rekuest/agents/transport/websocket.py:597-600`). `SentBeforeInit` reaches such a state, and `ReleasedByOwnInit` says exactly
  when a connection is released by its own Init: when no Init was waiting when it was opened.
- *`aflush` returns when everything is sent or discarded* (`rekuest/agents/transport/websocket.py:655-668`). `discard_journaled`
  marks frames done before it puts the plain ones back, so the count may pass 0. `FlushWokenEarly` is an instance, and the
  contract of `DiscardJournaled` has the exact condition.
- *A clean exit keeps the exact last value* (`rekuest/agents/agent.py:381`, `docs/journal.md:154`). A value that changes during the
  last write stays dirty. `LastChangeLost` is an instance, and `CleanExit` has the exact condition.
- A failed read of a history may leave a gap (`rekuest/client/postman.py:161-166`). `FailedReadLeavesGap` is an instance.
  `HarmlessIsExact` says which failures do: at any point of any run, whatever reads failed before, if the call is unharmed
  there, a read that fails leaves it in order in every continuation without further failed reads if and only if `Harmless`
  holds, which looks only at what waits on the call's queue, what it was handed, and what the feed brings next. A run without
  failed reads never has a gap
  (`NoFailedReadNoGap`), and a first read that fails before the feed shows anything does no harm
  (`EarlyFailureIsHarmless`). That no call waits on a dead feed, and that no event is doubled or dropped, holds whatever
  fails.
- *Answering again would only contradict* a retained end (`rekuest/agents/agent.py:472-476`). The check for a retained end and
  the answer are not one step: the actor is asked in between. `LateIsCrossed` says exactly when an answer comes after the
  task's own end: when the task ends while its actor is asked. The runtime's gate (`docs/journal.md:47`) is not part of this
  model.

## Model

| member | source | states |
|---|---|---|
| Frames.ResendOrder | rekuest/agents/agent.py:127-131 | the keys, each listed, strictly increasing in `(created, session, pos)` |
| Frames.ResendOrderIs | rekuest/agents/agent.py:127-131 | of two listed keys the first has the earlier session, or of two created at one time the one named first, or the smaller position of the same |
| Frames.TextBeforeIs | rekuest/agents/agent.py:130-130 | texts are compared character by character, a beginning first |
| Frames.ResendOrderUnique | rekuest/agents/agent.py:127-131 | there is only one such listing of a set of keys |
| Frames.ResendOrderAgrees | rekuest/agents/retention.py:145-150 | two tables of creation times that agree on the keys' sessions give the same order |
| Retention.JournalFile.constructor | rekuest/agents/retention.py:58-83 | a new file has two empty tables |
| Retention.RetainedFrames.constructor | rekuest/agents/retention.py:52-56 | an opened store shows its agent's rows of the file and changes none |
| Retention.RetainedFrames.OpenSession | rekuest/agents/retention.py:88-103 | a session's row is inserted unless it is there; the time returned is the row's; no other agent's row changes |
| Retention.RetainedFrames.Add | rekuest/agents/retention.py:105-111 | a frame is inserted or replaces itself; no other agent's row changes |
| Retention.RetainedFrames.DeleteUpTo | rekuest/agents/retention.py:116-119 | exactly this agent's frames of the session up to the position go |
| Retention.RetainedFrames.RaiseAcked | rekuest/agents/retention.py:120-123 | the session's acknowledged position is raised and never lowered |
| Retention.RetainedFrames.Ack | rekuest/agents/retention.py:113-123 | both of these, for this agent only |
| Retention.RetainedFrames.Prune | rekuest/agents/retention.py:125-138 | of the agent's sessions exactly those without a frame go, but the one to keep; nothing else in the tables changes |
| Retention.RetainedFrames.Load | rekuest/agents/retention.py:140-155 | the rows past their session's acknowledged position, each once, with its session's creation time or 0, by time, session and position, said of the tables themselves |
| Retention.OthersView | rekuest/agents/retention.py:116-122 | a change that leaves all rows of other agents alone leaves every other agent's view of the file alone |
| Retention.ViewUnique | rekuest/agents/retention.py:63-82 | an agent's view of the two tables is determined by them |
| Bookkeeping.LoadKept | rekuest/agents/agent.py:146-156 | what a new process loads is exactly what is owed, with the creation times of its sessions |
| Bookkeeping.KnowKept | rekuest/agents/agent.py:197-201 | knowing a session keeps memory and file in agreement |
| Bookkeeping.RetainKept | rekuest/agents/agent.py:211-220 | after the next position is retained, exactly the positions after the last acknowledged one are kept, in memory and in the file |
| Bookkeeping.AckKept | rekuest/agents/agent.py:225-235 | the same after an acknowledgement, with the pruning it may start |
| Bookkeeping.LoadKeepsAll | rekuest/agents/retention.py:149-149 | the load's filter on the acknowledged position drops nothing |
| Bookkeeping.LoadIsResendOrder | rekuest/agents/retention.py:140-155 | whenever memory and file agree, loading the file yields memory's keys in the order they are re-sent |
| Memory.OpeningIs | rekuest/agents/agent.py:146-156 | opening a store adds what the file owes with its sessions' times, and nothing over what memory has |
| Memory.KnowingIs | rekuest/agents/agent.py:197-201 | a session that memory does not know gets a row unless it has one, and memory the row's time |
| Memory.RetainedIs | rekuest/agents/agent.py:211-220 | a report is kept in memory and in the file; of a known session, with the store open, nothing else changes |
| Memory.AcknowledgedIs | rekuest/agents/agent.py:225-235 | what is covered goes from both, a position is never lowered, and rows are forgotten exactly when their session has no frame, is not the current one, and the acknowledged session owes nothing |
| Memory.ResentIs | rekuest/agents/agent.py:237-244 | every retained frame is sent again exactly once, in order |
| Memory.AfterInitIs | rekuest/agents/agent.py:440-448 | after an Init the frame in flight and a held plain one stay, queued plain frames come first, then everything retained |
| Agent.DefaultedIsLoaded | rekuest/agents/agent.py:146-156 | setting each loaded row as a default adds what is owed, and nothing over what memory has |
| Agent.LoadedRows | rekuest/agents/retention.py:154-155 | the rows that a load yields are those owed |
| Agent.RekuestAgent.constructor | rekuest/agents/agent.py:104-112 | a new agent holds nothing in memory; what earlier runs left is in the file |
| Agent.RekuestAgent.TakeOver | rekuest/agents/agent.py:146-156 | each row is set as a default, in the order given |
| Agent.RekuestAgent.LoadStore | rekuest/agents/agent.py:146-156 | the whole loading loop adds exactly what the file owes |
| Agent.RekuestAgent.OpenStore | rekuest/agents/agent.py:133-161 | the store is opened and loaded on first use, and only then |
| Agent.RekuestAgent.KnowSession | rekuest/agents/agent.py:197-201 | an unknown session opens the store, gets its row, and memory gets that row's time; a known one changes nothing |
| Agent.RekuestAgent.Start | rekuest/agents/agent.py:203-208 | the store is opened and what earlier runs left is read, if it was not yet, before the new session gets its row |
| Agent.RekuestAgent.RetainEmitted | rekuest/agents/agent.py:211-220 | memory gets the frame first, then the file, which is opened and loaded if it was not yet |
| Agent.RekuestAgent.DropCovered | rekuest/agents/agent.py:227-228 | exactly the covered keys leave memory |
| Agent.RekuestAgent.JournalAck | rekuest/agents/agent.py:225-235 | memory drops what is covered, then the file, opened and loaded if it was not yet; a session that owes nothing starts a pruning that spares the current one |
| Agent.RekuestAgent.SendRetained | rekuest/agents/agent.py:241-244 | the frames of the keys are put on the queue in the keys' order |
| Agent.RekuestAgent.ResendRetained | rekuest/agents/agent.py:237-244 | everything retained is put on the queue, in order |
| Agent.RekuestAgent.AfterInit | rekuest/agents/agent.py:440-448 | numbered frames still queued go, everything retained comes, and a transport that holds its sends is released with that line and not before |
| Agent.RekuestAgent.ResendReports | rekuest/agents/agent.py:246-265 | exactly the frames of the task's retained terminal reports are put, each once, in the order of sending again; the result says whether there are any |
| Agent.RekuestAgent.CompleteResume | rekuest/agents/agent.py:163-195 | after the store was opened: behind the server's entries one for each key under which an effect of the task is retained that they lack, as it was recorded and as often; the last step is the greatest of the server's and the retained |
| Agent.RekuestAgent.Dispatch | docs/journal.md:45-45 | a report gets the next position, is retained under it in memory and in the file, which is opened and loaded if it was not yet, and is put on the queue |
| Agent.RekuestAgent.ReportLiveness | rekuest/agents/agent.py:470-503 | one asked task: nothing if its end is retained; else whatever else is reported while its actor is asked, then the answer as the actor says; all of it numbered, retained and put in that order |
| Agent.RekuestAgent.ReplyToInquiries | rekuest/agents/agent.py:463-468 | all of an Init's inquiries are answered in turn, among any other reports, each seeing what everything before it retained |
| Agent.NeverContradicted | rekuest/agents/agent.py:472-485 | after an Init a task whose end is re-sent gets no answer; of any other nothing is said after a Critical, and one that is found not to run gets it if nothing but an answer ends it |
| Inquiries.AnswersAre | rekuest/agents/agent.py:463-503 | for any list of inquiries, repeats and other reports included: no answer for a task with a retained end; for any other a beginning of what should be told of it, and all of that if nothing but an answer ends it |
| Inquiries.ToldIs | rekuest/agents/agent.py:478-503 | what should be told of a task: a Progress each time it runs, then one Critical if it is once found not to, and nothing after it |
| Inquiries.LateIsCrossed | rekuest/agents/agent.py:472-503 | an answer comes after its task's end if and only if the task, its end not yet retained when checked, ends while its actor is asked |
| Inquiries.EndedGrows | rekuest/agents/agent.py:246-255 | retaining a report ends its task if and only if the report is terminal |
| ResumeJournal.CompleteAdds | rekuest/agents/agent.py:173-195 | the completed journal begins with the server's, covers every held report of the task, and adds only held effects under keys the server lacks |
| ResumeJournal.CompleteCounts | rekuest/agents/agent.py:173-191 | how often each entry is added is how often it is retained for the task under a key the server lacks |
| ResumeJournal.DeadValueIsReplayed | rekuest/agents/agent.py:163-191 | a run in which a process records a value and is killed, and the next completes an empty journal with it |
| ResumeJournal.ResumeIsComplete | rekuest/agents/agent.py:163-195 | in every run, when an Assign with a resume journal is handled, the completed journal has the key of every effect the task ever emitted and a last step no smaller than any of its steps; the server's values win |
| ResumeJournal.RetainedWasEmitted | rekuest/agents/agent.py:174-178 | a retained effect is one that this task emitted |
| CallKeys.KeyInjective | rekuest/agents/caller.py:324-327 | a key tells its base and its occurrence, whatever the digest is |
| CallKeys.DecimalReads | rekuest/agents/caller.py:325-327 | an occurrence is rendered by the decimal numeral that reads as it, in digits alone and without a leading zero |
| CallKeys.ChildrenAreNamed | rekuest/agents/caller.py:315-327 | the children of a run depend on its multiset of calls alone |
| CallKeys.OrderDoesNotMatter | rekuest/agents/caller.py:318-321 | runs that make the same calls, in any order, name the same children |
| CallKeys.ChildrenDiffer | rekuest/agents/caller.py:325-327 | no two calls of a run get the same key |
| CallKeys.ChildrenCreatedOnce | rekuest/agents/caller.py:228-238 | a run that stopped anywhere, followed by one that makes its calls again among others, leaves exactly as many children as the second makes calls |
| CallKeys.BaseTells | rekuest/agents/caller.py:323-324 | what a call is named by tells its target and its digest |
| CallKeys.FoundChildIsTheSameCall | rekuest/agents/caller.py:318-327 | a child found again was made by a call with the same parent, the same target and the same digest, because digests are equally long |
| CallKeys.ForgetParent | rekuest/agents/caller.py:310-313 | once a parent is forgotten its calls are named as in a fresh process, and every other parent's as if nothing had been forgotten, in whatever order they are made |
| CallKeys.CallCounters.constructor | rekuest/agents/caller.py:175-175 | a fresh process counts from nothing |
| CallKeys.CallCounters.DeriveCallKey | rekuest/agents/caller.py:315-327 | the key is the target, the digest and the next occurrence, as the run's next child has it, and this call alone is counted |
| CallKeys.CallCounters.ForgetParentTask | rekuest/agents/caller.py:310-313 | exactly the parent's counters go; every other one stays as it was |
| Sender.SenderConserves | rekuest/agents/transport/websocket.py:540-638 | through failed sends, cancellations and discards in any order: plain frames sent, then in flight, held and queued are the plain frames put, in order; a held frame is never overwritten |
| Sender.WebsocketSender.constructor | rekuest/agents/transport/websocket.py:226-240 | a new session has an empty line |
| Sender.FlushedAll | rekuest/agents/transport/websocket.py:655-668 | once nothing is in the line, the plain frames sent are the plain frames put, in order |
| Sender.WebsocketSender.Connected | rekuest/agents/transport/websocket.py:438-443 | on a new connection nothing may be sent yet if its host holds its sends |
| Sender.WebsocketSender.ReleaseSends | rekuest/agents/transport/websocket.py:597-600 | the connection may send from here on, with the line it has here |
| Sender.WebsocketSender.Send | rekuest/agents/transport/websocket.py:640-653 | a frame joins the end of the line and is counted |
| Sender.WebsocketSender.Take | rekuest/agents/transport/websocket.py:570-574 | only a connection that may send takes a frame: the held one first, else the queue's first; the count stays |
| Sender.WebsocketSender.Done | rekuest/agents/transport/websocket.py:589-590 | a frame is sent; a flush that this wakes finds that all plain frames put were sent, in order |
| Sender.WebsocketSender.Requeue | rekuest/agents/transport/websocket.py:553-565 | the frame in flight is held for the next connection, and none is overwritten |
| Sender.WebsocketSender.BeginFlush | rekuest/agents/transport/websocket.py:655-668 | a flush returns at once if and only if there is no client or nothing is unsent; with a client all plain frames put were then sent, in order |
| Sender.WebsocketSender.DropHeld | rekuest/agents/transport/websocket.py:620-624 | a held frame goes, and counts as done, if and only if it is numbered |
| Sender.WebsocketSender.Drain | rekuest/agents/transport/websocket.py:625-635 | the plain frames are kept in order, and every frame taken off is counted as done |
| Sender.WebsocketSender.PutBack | rekuest/agents/transport/websocket.py:636-637 | the kept frames are queued in order and counted again |
| Sender.WebsocketSender.DiscardJournaled | rekuest/agents/transport/websocket.py:602-638 | exactly the queued and held numbered frames go; a waiting flush is woken with frames unsent if and only if none is in flight, no plain one is held and a plain one is queued |
| Sender.FlushWokenEarly | rekuest/agents/transport/websocket.py:655-668 | a flush that waited for one plain frame is woken while the frame is unsent |
| DeliveryProof.EmitKeeps | rekuest/agents/agent.py:211-220 | emitting a report keeps the protocol's invariant |
| DeliveryProof.ResendKeeps | rekuest/agents/agent.py:257-265 | so does sending retained frames again, out of turn |
| DeliveryProof.InitKeeps | rekuest/agents/agent.py:433-448 | so does handling any Init, on a live connection or without one |
| DeliveryProof.AckKeeps | rekuest/agents/agent.py:225-235 | so does handling an acknowledgement, also one that is old |
| DeliveryProof.DropKeeps | rekuest/agents/transport/websocket.py:591-595 | so does a drop in the middle of a send, whether the frame arrived or not |
| DeliveryProof.CrashKeeps | docs/journal.md:130-133 | so does the death of the process |
| DeliveryProof.StartKeeps | rekuest/agents/agent.py:203-208 | so does the start of another process on the same file |
| DeliveryProof.StepKeeps | rekuest/agents/agent.py:211-244 | every step of the protocol keeps the invariant |
| DeliveryProof.NothingLost | rekuest/agents/agent.py:211-244 | in every state a run reaches: the server has a beginning of each session as it was emitted; each later report is in the file, and in memory while a process runs; what is kept is exactly what no handled acknowledgement covers |
| DeliveryProof.AllDelivered | rekuest/agents/agent.py:237-244 | in every state a run reaches in which a connection is released, the line is empty and the wire has arrived, the server has taken everything that was ever emitted |
| DeliveryProgress.CanComplete | rekuest/agents/agent.py:211-244 | from every state that any run reaches, some continuation brings every report to the server and its acknowledgement back, so that nothing is owed |
| DeliveryProgress.NumberedInTurn | docs/journal.md:45-45 | a report is the current session's next; it is kept under that position and put at the line's end |
| DeliveryProgress.MintedIsCurrent | rekuest/agents/agent.py:203-208 | a minted session is the current one and starts without reports |
| DeliveryProgress.EndsAreSentAgain | rekuest/agents/agent.py:257-265 | a duplicate Assign puts the frames of the task's retained ends at the line's end |
| DeliveryProgress.CutOff | rekuest/agents/transport/websocket.py:553-565 | a frame whose send is cut off is on the wire or not, and in either case the next to be sent |
| DeliveryProgress.Killed | docs/journal.md:130-133 | so it is when the process is killed, of which the file is left |
| DeliveryProgress.AnyEndIsLost | docs/journal.md:130-133 | of a connection that is gone any end of what had not arrived may be lost |
| DeliveryProof.NoHole | rekuest/agents/agent.py:225-235 | in every state a run reaches, the server has met no hole, and no acknowledgement dropped a frame that it lacks |
| DeliveryProof.NoGap | rekuest/agents/agent.py:225-265 | whatever frame arrives next on whatever connection is its session's next or one the server has |
| DeliveryProof.MemoryRefinesFile | rekuest/agents/agent.py:133-161 | in every state of a running process, reading its file gives back what memory retains, in the order it is re-sent |
| WireOrder.FirstSendsRise | rekuest/agents/agent.py:433-447 | on every connection of a run the first sends of numbered frames are strictly increasing in `(created, session, pos)`: earlier sessions first, new frames last |
| Release.ReleasedByOwnInit | rekuest/agents/transport/websocket.py:438-444 | nothing is sent on a connection before an Init is handled; that Init is its own if and only if none waited in the agent's inbox when it was opened |
| Release.SentBeforeInit | rekuest/agents/agent.py:433-448 | a run in which a frame is sent on a connection whose own Init never came |
| Merge.RefilledIs | rekuest/client/postman.py:145-159 | a refilled queue has the missed part of the history, then what is newer; a mark stays behind what was before it |
| Watch.BoundLine | rekuest/client/postman.py:83-95 | binding moves early events to the queue without changing what the call will get |
| Watch.RoutedLine | rekuest/client/postman.py:97-112 | an event that comes first joins the end of what the call will get, unless the feed is lost |
| Watch.LostLine | rekuest/client/postman.py:503-513 | the mark goes behind everything on the queue |
| Watch.CaughtUpAccounted | rekuest/client/postman.py:145-159 | after a catch-up every event that came, and every event of the history, is in one place, once |
| WatchSound.StepSound | rekuest/client/postman.py:83-181 | every step of feed, reads, watcher and call, failed reads among them, keeps each event that came in one place, once |
| WatchSound.NoDeadFeed | rekuest/client/postman.py:267-278 | in every state of every run, whatever reads failed, a registered queue is served by a watcher or holds a feed-lost mark |
| WatchSound.AtMostOnce | rekuest/client/postman.py:97-112 | in every run, whatever reads failed, no event is handed on or queued twice |
| WatchSound.NeverDropped | rekuest/client/postman.py:83-159 | in every run, an event that the feed or a read brought is handed on, or waits, as long as its call does |
| WatchSound.MarkStaysBehind | rekuest/client/postman.py:145-159 | a catch-up drops neither a mark nor a waiting event, and puts no mark ahead of an event that waited before it |
| WatchProof.WatcherCatchesUp | rekuest/client/postman.py:483-486 | the watcher's catch-up closes the gap before the subscription, with whatever else is on its way |
| WatchProof.FirstCatchesUp | rekuest/client/postman.py:313-315 | so does a call's first read, however old its answer is |
| WatchProof.StreamCatchesUp | rekuest/client/postman.py:168-181 | a later read of any age keeps the order |
| WatchProof.StepKept | rekuest/client/postman.py:83-181 | every step keeps a call's events in order and without a gap, a failed read if it is harmless |
| WatchGap.EachOnceInOrder | rekuest/client/postman.py:83-181 | at every point of every run whose failed reads are harmless, what a call was handed and then what waits before a feed-lost mark are its task's first events, each once, in order |
| WatchGap.NoFailedReadNoGap | rekuest/client/postman.py:83-181 | the same at every point of every run in which no read fails |
| WatchGap.UnharmedIsInv | rekuest/client/postman.py:83-181 | in every run, whatever reads failed, the invariant holds exactly where no continuation without failed reads leaves a gap |
| WatchGap.HarmlessRunIsUnharmed | rekuest/client/postman.py:161-166 | a run whose failed reads were all harmless leaves the call unharmed |
| WatchGap.HarmlessIsExact | rekuest/client/postman.py:161-166 | in every run, whatever reads failed before: while a call is unharmed, a read that fails is harmless if and only if, in every continuation in which no more reads fail, the call's events stay in order and without a gap |
| WatchGap.EarlyFailureIsHarmless | rekuest/client/postman.py:161-166 | in every run, a first read that fails before the feed shows anything does an unharmed call no harm |
| WatchGap.FailedReadLeavesGap | rekuest/client/postman.py:161-166 | a run in which a call's first read fails and the first event it is handed is its task's second |
| WatchGap.NothingMissing | rekuest/client/postman.py:468-490 | once a live feed has brought what it has, the call was handed the whole history or it waits on its queue, if failed reads were harmless |
| WatchGap.CatchUpLeavesNoneOut | rekuest/client/postman.py:131-181 | in every run, whatever reads failed before, a successful read of a history that has ended leaves each of its events handed on or queued, exactly once |
| WatchGap.CatchUpCompletes | rekuest/client/postman.py:131-181 | if failed reads were harmless, what the call then has is the whole history, in order, even if the feed never brings anything |
| WatchGap.AllCanBeHanded | rekuest/client/postman.py:131-181 | from every state of any run in which a call streams and its feed is not lost, one more read lets it be handed every event of its task, each once, and in order if unharmed |
| WatchGap.LostFeedEnds | rekuest/client/postman.py:317-326 | from every state of any run, a call whose feed was lost is handed what waits before the mark and ends |
| WatchGap.AnyFeedCanDie | rekuest/client/postman.py:491-513 | the server may close the feed at any time; then a waiting call has a mark behind what it has, and a new feed may start |
| WatchGap.CreationBinds | rekuest/client/postman.py:487-488 | a run in which the change that creates the task binds the call before its assign is answered |
| WatchGap.EndsForGood | rekuest/client/postman.py:341-358 | a call that ended is handed nothing more |
| WatchGap.ReadsUnlessLive | rekuest/client/postman.py:277-320 | a call that began while the feed was live streams at once, any other reads first |
| Postman.GraphQLPostman.Register | rekuest/client/postman.py:274-278 | a call's queue is new, and nothing else changes |
| Postman.GraphQLPostman.Bind | rekuest/client/postman.py:83-95 | the call's slot is bound and flushed; no other call's slot changes |
| Postman.GraphQLPostman.Route | rekuest/client/postman.py:97-112 | an event is routed once, to its task's slot only |
| Postman.GraphQLPostman.CatchUp | rekuest/client/postman.py:139-159 | the drain and refill loops leave the caught-up queue; no other call's slot changes |
| Postman.GraphQLPostman.Drain | rekuest/client/postman.py:145-147 | the queue is emptied, in order |
| Postman.GraphQLPostman.Refill | rekuest/client/postman.py:150-156 | the events the call did not take are put back in the history's order, and all of the history counts as routed |
| Postman.GraphQLPostman.PutBack | rekuest/client/postman.py:157-159 | marks and newer events follow, in order |
| Postman.GraphQLPostman.FailPending | rekuest/client/postman.py:503-513 | every queue gets a mark at its end, and the next call starts a feed |
| Postman.GraphQLPostman.CleanupReference | rekuest/client/postman.py:348-358 | nothing of the call is kept; no other call's slot changes |
| WatchAll.RunAlone | rekuest/client/postman.py:83-181 | a run of many calls over one feed, one watcher and shared maps is, for each of them, a run of it alone, in which only its own reads fail |
| WatchAll.NothingCrosses | rekuest/client/postman.py:83-159 | whatever other calls do and whatever reads fail, a call has its own task's events alone, each once, and waits on a live feed or a mark; if no read of its own fails, they are in order and without a gap |
| WatchAll.EndLeavesNothing | rekuest/client/postman.py:348-358 | a call that ends leaves no queue, and once it was bound no binding, early event or routed id; every other queue stays |
| Caller.FreshOnce | rekuest/agents/caller.py:366-371 | deduplication shows each number once and leaves no number out |
| Caller.DueGrows | rekuest/agents/caller.py:367-376 | what is due only grows as events arrive, and stays once the stream has ended |
| Caller.StepKept | rekuest/agents/caller.py:342-376 | each arrival, answer and turn of the loop keeps what was handed on and what waits in step with what arrived |
| Caller.StreamRefines | rekuest/agents/caller.py:342-376 | at every point of every run, what a call yielded is a beginning of the adapted, deduplicated, cut arrivals of its task, and all of it once nothing waits |
| Caller.StreamEnds | rekuest/agents/caller.py:375-376 | a stream that ended handed on all that is due, whatever arrives afterwards |
| Caller.AllIsHandedOn | rekuest/agents/caller.py:364-376 | from every state of any run after its answer, the loop's turns bring a call all that is due of what arrived |
| Caller.StopsForGood | rekuest/agents/caller.py:397-403 | a stopped call has no mailbox and yields nothing more |
| Caller.KilledIsCritical | rekuest/agents/caller.py:84-87 | a call whose task was cancelled or interrupted under it gets a CRITICAL last, and so fails loudly |
| Caller.AStream | rekuest/agents/caller.py:364-376 | exactly the events that are new, not bookkeeping, and not after the first that ends the stream are told, in order, and of each mirror kind, message, result, value and task are as it says |
| Caller.AgentPostman.EnsureQueue | rekuest/agents/caller.py:412-421 | the task's early events are moved to its queue in order; no other task's mailbox changes |
| Caller.AgentPostman.HandleExecutionEvent | rekuest/agents/caller.py:542-558 | an event joins its own task's queue or early events |
| Caller.AgentPostman.HandleResponse | rekuest/agents/caller.py:493-504 | early events are kept for a task that was assigned, and the first answer to a request is its answer |
| Caller.AgentPostman.Accept | rekuest/agents/caller.py:350-362 | an answer gives a task, a refusal or a nondeterministic workflow; only a task changes anything |
| Caller.AgentPostman.Finish | rekuest/agents/caller.py:397-403 | nothing of an ended call is kept; no other task's mailbox changes |
| Calls.RunAlone | rekuest/agents/caller.py:143-149 | a run of many calls over shared maps is, for each of them, a run of that call alone |
| Calls.NothingCrosses | rekuest/agents/caller.py:143-149 | whatever other calls do, a call yields a beginning of what is due of its own task's events, and all of it once none waits |
| Cancellation.AwaitKind | rekuest/agents/caller.py:467-489 | a wait finds a confirmation if and only if one arrives before its deadline and before the feed is lost; it ends with that signal, with the loss, or at the deadline, and takes off exactly what came before |
| Cancellation.ConfirmCancellation | rekuest/agents/caller.py:423-449 | one cancel, and one interrupt if and only if it is unconfirmed and escalation is on; at most 2 timeouts |
| Cancellation.ConfirmOverGraphQL | rekuest/client/postman.py:388-440 | the same with requests that are given up after a timeout; at most 4 timeouts |
| Cancellation.AssignedDespiteCancel | rekuest/client/postman.py:364-382 | a task is missed only when the answer is still out after the whole timeout, and a task that is learnt was learnt before it |
| Cancellation.CancelledBeforeAnswer | rekuest/client/postman.py:287-299 | the task is cancelled if and only if it is learnt within the timeout, interrupted if and only if escalation is on and no CANCELLED arrives in time, and confirmed exactly as any cancel; at most 5 timeouts |
| StateFlush.WritesInOrder | rekuest/agents/agent.py:370-378 | writes land in the order their values were taken, so that a stored value never goes back |
| StateFlush.DirtyOrStored | rekuest/agents/agent.py:323-378 | until the store is closed a state is dirty, or its current value is stored or being written; under the synchronous policy it is stored |
| StateFlush.FlushesUntilStopped | rekuest/agents/agent.py:370-378 | in every state of a run the flushing of a periodic state goes on unless it was stopped; an idle period changes nothing |
| StateFlush.WrittenInItsPeriod | rekuest/agents/agent.py:344-378 | from every state of a run, a changed value that waits for its period is stored by it, and the next period is waited for unless stopped |
| StateFlush.ChangeIsNoted | rekuest/agents/agent.py:323-342 | a change marks a periodic state and is written at once for a synchronous one |
| StateFlush.StartIsNoted | rekuest/agents/agent.py:323-342 | so does a session's start, for a state that has a value |
| StateFlush.CleanExit | rekuest/agents/agent.py:380-389 | a closed store has the last value if and only if the value did not change after it was last taken |
| StateFlush.LastChangeLost | rekuest/agents/agent.py:373-378 | a run in which a change during the last write is never written |
| StateFlush.StateKeeper.TakeDirtyState | rekuest/agents/agent.py:344-359 | a dirty state is clean afterwards and gives its value if it has one |
| StateFlush.StateKeeper.WriteState | rekuest/agents/agent.py:361-368 | the stored value is replaced; a closed store takes nothing |
| StateFlush.StateKeeper.NoteStateChange | rekuest/agents/agent.py:323-342 | each named state is written at once or marked, as its policy says, and no other |
| Reconnect.RetryBound | rekuest/agents/transport/websocket.py:498-534 | no stretch that has a long connection at most at its start holds more than `max_retries` + 1 correctable failures, and at that count the loop is over |
| Reconnect.TotalBound | rekuest/agents/transport/websocket.py:389-534 | the failures, and without clean closes the attempts, are bounded by `max_retries` + 1 for each long connection and once more |
| Reconnect.RecentCounts | rekuest/agents/transport/websocket.py:204-205 | the length of the pruned list is the number of drops inside the window |
| Reconnect.RetriesBelowLimit | rekuest/agents/transport/websocket.py:522-534 | whenever the loop retries, fewer than `flap_limit` of all drops of the session lie inside the window |
| Reconnect.EndsBecause | rekuest/agents/transport/websocket.py:395-534 | why the loop ended: a definite failure, a disconnect asked for, a spent budget, or at least `flap_limit` of all drops inside the window, whose number is reported |
| Reconnect.WithinBudget | rekuest/agents/transport/websocket.py:502-533 | while the loop goes on, the failures since the last refund are within the budget |
| Reconnect.WebsocketConnection.Enter | rekuest/agents/transport/websocket.py:226-240 | a new session starts without drops |
| Reconnect.WebsocketConnection.Dropped | rekuest/agents/transport/websocket.py:496-497 | a drop is kept in the pruned list whenever it can still count |
| Reconnect.WebsocketConnection.IsFlapping | rekuest/agents/transport/websocket.py:194-205 | the pruned list decides as the whole history of drops would |
| Reconnect.WebsocketConnection.Turn | rekuest/agents/transport/websocket.py:486-534 | how the end of one attempt refunds, charges or ends the loop; a clean end neither charges nor looks at flapping, and ends the loop if a disconnect was asked for |
| Reconnect.WebsocketConnection.ConnectAndReceive | rekuest/agents/transport/websocket.py:389-534 | over any sequence of attempts, the loop goes on after exactly those attempts after which budget and window allow it, and ends with the reason that does not |

## Left out

- Sockets, TLS, proxies, tokens, handshake contents, JSON and message parsing: a frame is a value; close codes (section 7.4 of RFC
  6455) count only as correctable or definite.
- SQLite, threads and fsync: the tables are maps; failing reads and writes, unreadable frames and the in-memory fallback store are
  not modelled.
- The base agent, actors, task gates, the backoff's formula and the server beyond the steps named above.
- SHA-256 and the JSON of arguments: one function that need not be injective, cut to 8 digits. Keys that a caller gives itself.
- ReportLiveness: the actor's answer and what else the agent reports meanwhile are given; acknowledgements are not handled
  meanwhile.
- AStream: takes the queue as it stands; arrivals between its turns are the steps of the machine that `StreamRefines` is about.
- Bind: after a call has ended, a late creation or event leaves early events and routed ids behind; nothing is claimed about
  them. A watcher's read for a call that had ended before its first change has no effect and is no step.
- CatchUpLeavesNoneOut: the read must succeed; how often a call reads (`catch_up_interval` and its doubling) is left out.
- NoDeadFeed: `stop_watching`, the orderly shutdown that leaves calls waiting, is not a step.
- ConfirmCancellation: only waits take time; a generator that is closed sends one cancel and waits for nothing, which is left out.
- CleanExit: a state is identified by a revision that grows with every change; schema hashes, rejected old states and failing writes
  are left out.
- ConnectAndReceive: an attempt is given by when it connected, how it ended and when; the wait between attempts only moves the clock.
- The gap warnings that `_last_seq` is kept for, log messages, probes' other fields, `astate_revision`, `aprobe`'s request.
- `rekuest/arkitekt.py`, `client.py`, `graphql.py`, `control.py`, `backend.py`, uploads, the datalayer, scalars, traits and the
  generated schema: wiring and single-branch checks.
