# Prosody for Ruby, verified in Dafny

This project models the Ruby binding of the Prosody Kafka client and proves what it promises: how an
event travels from a Rust task to a Ruby handler fiber and its outcome travels back, how the bridge
between the two worlds orders commands and owns Ruby values, what the query keywords of keyed state
select and how a chunked cursor is traversed, and four smaller pieces: the windowing handler of the
examples, the error wrappers, the handler validation and the rounding of timer times.

`dafny verify dfyconfig.toml` checks everything.

## How the parts fit

**Task lifecycle.** `Lifecycle` is a transition system over any number of tasks. A task's Rust future,
the bridge channel, the command queue, the command loop, and the three fibers of each task (supervisor,
worker, watcher) step in any order that the event loop allows: fibers switch only where they yield,
block or end, and the bridge thread and the Rust futures may step between any two fiber steps. User code
returns, raises, swallows or re-raises a Stop, yields or is aborted as it likes, and the log calls of the
loop and of `stop` may raise. `LifecycleInvariant` is the inductive invariant, `LifecycleTheorems` draws
the promises from it, `LifecycleOutcome` follows an outcome from the handler block to the caller,
`LifecycleDrain` proves that a shutdown ends, `LifecycleResolve` that no caller hangs, and `LifecycleAbort` has concrete runs in which the command loop ends early. `ResultChannel` and
`Processor` hold the objects as classes: the result channel by the functions that the system itself uses,
the processor by operations on a view, and `ProcessorSteps` proves that every step of the system is one
of those operations.

**Bridge.** `Bridge` is the FIFO with its interruptible, batched polls, as a class proved against a
specification; `WaitFor` is the delivery of future outputs to concurrent Ruby callers; `Ownership` is
the releasing of wrapped Ruby values, whatever thread drops them.

**Queries.** `Query` translates an option hash into a core query, as the Rust code does. `QueryMeaning`
states the keyword table of the README independently, as a walk in iteration order, and proves that the
translation selects exactly that. `QueryLaws` proves the laws that users rely on, and `Paging` keyset
paging, from option hashes to pages. `Scan` proves the traversal loop against the flat sequence.

**Smaller pieces.** `Windowing` has the handler methods, effect by effect, with an attempt failing
anywhere; `WindowingRuns` and `WindowingOrder` prove safety, conservation and order over all runs of
such attempts. `ErrorWrappers` proves that a wrapper chain is a fold over the declarations and carries
that through to the retry decision. `HandlerValidation` and `TimerRounding` prove their methods against
independent definitions of binding and of the nearest second.

## Where the code does less than it says

Each of these is kept as the code has it, with a concrete run or input and the exact condition.

- `Async::Barrier#wait` raises the error of a failed task. A worker that dies by an error in its rescue
  body therefore makes the command loop end by that error while other accepted tasks may still run
  (`LifecycleAbort.FailedTaskCutsTheWaitShort`).
- A log call of the loop, or `barrier.async`, can raise and end the loop. A task popped just then never
  starts, what is queued stays queued, and further tasks are accepted although nothing will run them
  (`LifecycleAbort.RaisingLogLeavesTasksUnstarted`). All accepted tasks start exactly when the loop has not
  raised with a popped task at hand (`LifecycleTheorems.EveryAcceptedTaskStartsIff`); the loop breaks in the
  orderly way exactly when nothing in it raised and no task failed (`LifecycleTheorems.LoopBreaksIff`); and
  the callers of the commands left in the queue, and only they, are never answered
  (`LifecycleTheorems.QueuedBehindTheEnd`, `LifecycleResolve.NoCallerHangs`).
- If it is the log call in front of a dispatch that raises, the dispatch span has been started and nobody
  finishes it, as the same run shows; no other span of a task that is over or dropped stays open, and none is
  finished twice (`LifecycleTheorems.SpanFinishedIff`).
- `stop` logs before it queues Shutdown. If that raises, the flag is set all the same, and the loop waits
  for ever (`LifecycleAbort.RaisingStopLeavesTheLoopWaiting`), exactly then and if the loop does not raise
  itself (`LifecycleDrain.LoopWaitsForEverIff`, `LifecycleDrain.LoopOutlivesALostStop`).
- "Keywords narrow the selection and never widen it" does not hold under `limit:`
  (`QueryLaws.KeywordsCanWidenUnderALimit`); `QueryLaws.NarrowingUnderALimit` says exactly when it does,
  and `to:` and `before:` always narrow. To a traversal without a limit any keyword may be added.
- Paging with `after:` refuses its second page if the first was asked for with `from:`; that and a limit
  out of range are the only refusals (`Paging.ReadInPages`).
- A timer or an excise of the windowing handler that is given up, rather than retried, can leave a
  window open for good (`WindowingRuns.GivingUpCanStrand`); `WindowingRuns.StepStaysSafeIff` names
  exactly the attempts that do.
- A handler method that only an object's singleton class defines is refused, although a call would
  reach it (`HandlerValidation.SingletonMethodIsRefused`); otherwise validation is what lookup order says.
- A handler that declares `Exception` permanent turns a cancel into a permanent error, so the event is
  not retried (`ErrorWrappers.CatchingExceptionGivesUpCancelled`). A cancel is given up exactly when the
  last wrapper that catches the Stop, by whichever of its classes, is permanent
  (`ErrorWrappers.CancelGivenUpIff`).
- The result callback answers true for a success even if the receiver has gone away
  (`ResultChannel.SuccessIsAnsweredToNobody`), where the doc comment at
  ext/prosody/src/scheduler/result.rs:72-76 says false; in all other cases it answers whether the report
  was delivered (`ResultChannel.AnswerIsDeliveryIff`).

ARCHITECTURE.md says that error wrappers extend the class; the code prepends them, and so does the model.

## Model

| member | source | states |
|---|---|---|
| `LifecycleInvariant.StepKeeps` | lib/prosody/processor.rb:179-318 | every step of Rust, bridge thread, command loop or fiber keeps the invariant that ties queues, flags, fibers, tokens, reports and result slots together |
| `LifecycleInvariant.ReachableKeeps` | lib/prosody/processor.rb:179-318 | the invariant holds in every state of every run |
| `LifecycleTheorems.NothingLostAtShutdown` | ext/prosody/src/scheduler/mod.rs:94-147 | when the command loop breaks, the queue is empty and every accepted task has run its handler once, ended all its fibers, finished its span once, and answered unless it was aborted |
| `LifecycleTheorems.EveryAcceptedTaskStartsIff` | lib/prosody/processor.rb:184-241 | once the loop is past Shutdown or over, all accepted tasks have started if and only if the run has no raise of the loop with a popped task at hand |
| `LifecycleTheorems.SpanFinishedIff` | lib/prosody/processor.rb:224-239 | no dispatch span is finished twice, and that of a task over or dropped is finished if and only if the log call in front of its dispatch did not raise |
| `LifecycleTheorems.LoopBreaksIff` | lib/prosody/processor.rb:184-240 | the loop ends in the orderly way if and only if no log call of it and no `barrier.async` raised in the run and no task failed |
| `LifecycleDrain.LoopWaitsForEverIff` | lib/prosody/processor.rb:143-148 | at rest after a stop request, the loop waits for a command that never comes if and only if the stop request raised and the loop did not |
| `LifecycleDrain.LoopOutlivesALostStop` | lib/prosody/processor.rb:143-148 | in any run in which the stop request raised, the loop has ended if and only if it raised itself |
| `LifecycleTheorems.QueuedBehindTheEnd` | lib/prosody/processor.rb:184-203 | a command left in the queue of a loop that has ended is never run and its caller never answered, whatever happens |
| `LifecycleAbort.FailedTaskCutsTheWaitShort` | lib/prosody/processor.rb:277-284 | a run in which one worker fails and the loop ends by its error while another accepted task still runs |
| `LifecycleAbort.RaisingLogLeavesTasksUnstarted` | lib/prosody/processor.rb:229 | a run in which a raising log call ends the loop with three accepted tasks, none of which starts |
| `LifecycleAbort.RaisingStopLeavesTheLoopWaiting` | lib/prosody/processor.rb:143-148 | a run in which the stop request raises, the flag is set, and the loop neither ends nor has a command to pop |
| `LifecycleTheorems.NothingBehindShutdown` | ext/prosody/src/scheduler/processor.rs:109-114 | once the flag is set, Shutdown stays last in the queue and every later submission is refused |
| `LifecycleTheorems.StepsStayApart` | lib/prosody/processor.rb:256-309 | a step of one task changes nothing of another |
| `LifecycleOutcome.CallerGetsWhatTheBlockDid` | ext/prosody/src/handler/mod.rs:133-158 | in every run a resolved caller holds the very JSON text its block returned, or a transient error with the reason why there is none, or the raised error with its text and permanence, or a transient cancel if the block let a Stop through, or closed if nothing was reported |
| `LifecycleOutcome.BlockDecidesFirstReport` | lib/prosody/processor.rb:262-296 | in every run the first report is the block's return value, the error it raised, or the cancel if it let a Stop through, and nothing is reported before the block is left |
| `LifecycleTheorems.FirstOutcomeWins` | ext/prosody/src/handler/mod.rs:133-158 | the handler runs at most once, and a resolved caller's result conveys the first report's value or text, is closed if there was none, or the refusal |
| `LifecycleTheorems.AnsweredCallerCanResolve` | ext/prosody/src/scheduler/result.rs:160-162 | a caller whose task has reported can take the outcome at once, and one whose task ended silently once its callback is collected |
| `LifecycleResolve.NoCallerHangs` | ext/prosody/src/handler/mod.rs:133-158 | from every reachable state, before or after a stop request, a bounded number of steps of the bridge, the processing thread, the collector and the futures brings every waiting caller to its task's first outcome, but for commands in the queue of a loop that raised |
| `LifecycleResolve.RestAnswersEveryone` | ext/prosody/src/scheduler/result.rs:160-162 | in every reachable rest with an empty channel, whatever user code did and whatever raised, two steps a task answer everyone but those |
| `LifecycleTheorems.GivenUpIffFirstReportIsPermanent` | ext/prosody/src/handler/mod.rs:343-350 | an event is not retried if and only if the first report is an exception whose `permanent?` is true |
| `LifecycleTheorems.OutcomesAreFinal` | ext/prosody/src/scheduler/result.rs:77-116 | over any continuation, a first report, a decided slot and a resolved caller never change |
| `LifecycleTheorems.CancelNeitherLostNorInvented` | lib/prosody/processor.rb:302-309 | at most one Stop per task, only for a pushed cancel, which is under way until it has become that Stop or the worker has finished |
| `LifecycleTheorems.PushedCancelArrives` | lib/prosody/processor.rb:302-309 | whenever the event loop is free and the worker is at work, the watcher's next two steps can raise a pushed cancel's Stop, inside the block if the worker is there, and change no report |
| `LifecycleOutcome.CancelCanBePushed` | ext/prosody/src/scheduler/cancellation.rs:55-66 | a waiting caller can ask for a cancel, and the bridge then adds one signal to that task's token and changes nothing else |
| `LifecycleOutcome.StopTakesEffect` | lib/prosody/processor.rb:267-300 | a Stop is raised inside a block, leads from behind a reported success to a cancel report, and ends a rescue body with nothing more reported |
| `LifecycleOutcome.StopLetThroughIsCancelled` | lib/prosody/processor.rb:272-276 | a block that lets the Stop through makes one report, a failure that is not permanent |
| `LifecycleOutcome.UserCodeIsFree` | lib/prosody/processor.rb:267-296 | a block can yield, return, raise, abort, and re-raise exactly a Stop it has seen; a log or capture call can yield, go on, raise and abort, each leading where the rescue clauses say |
| `LifecycleOutcome.RustStepsTakeEffect` | ext/prosody/src/scheduler/mod.rs:94-147 | scheduling queues a new waiting task's submission, dropping the scheduler queues a stop, and a dropped or resolved future closes its receiver |
| `LifecycleTheorems.StopLandsAtOwnYieldPoint` | lib/prosody/processor.rb:302-312 | a Stop comes from the task's own watcher, lands at a yield point of its own worker and changes no reported outcome |
| `LifecycleTheorems.SwallowedStopIsSuccess` | lib/prosody/processor.rb:267-275 | a worker that swallows the Stop and returns is reported as a success |
| `LifecycleDrain.ProcessorStepDescends` | lib/prosody/processor.rb:179-318 | every step of the processing thread makes the measure of remaining work smaller |
| `LifecycleDrain.OtherStepsAddNoWork` | ext/prosody/src/scheduler/processor.rs:109-165 | after shutdown every other step of Rust or the bridge thread leaves that measure as it is |
| `LifecycleDrain.DrainIsBounded` | lib/prosody/processor.rb:179-199 | in any run after shutdown, however interleaved, the processing thread takes at most as many steps as the measure says |
| `LifecycleDrain.ProcessorNeverStuck` | lib/prosody/processor.rb:179-318 | until the drain is over, the processing thread has a step to take in which the loop does not raise |
| `LifecycleDrain.DrainTerminates` | lib/prosody/processor.rb:184-194 | from every reachable state the processing thread can come to rest alone, with no live fiber and every accepted task run once and its span finished once, those dropped by a loop that had raised aside; after a stop request the loop ends unless its Shutdown was lost |
| `LifecycleDrain.EveryFullRunRests` | lib/prosody/processor.rb:179-318 | however user code behaves, a run of the processing thread that can go no further is at rest, within the measure |
| `ResultChannel.ResultSender.Send` | ext/prosody/src/scheduler/result.rs:77-116 | on an armed sender with an open receiver it sends the JSON text itself, or the reason why there is none, or the full message, else the inspected form, else the plain text, permanent exactly if the exception says so; any other call sends nothing |
| `ResultChannel.ResultSender.Collect` | ext/prosody/src/scheduler/result.rs:130-142 | collecting an uncalled callback closes the channel, collecting another changes nothing |
| `ResultChannel.FirstOutcomeWins` | ext/prosody/src/scheduler/result.rs:77-161 | over any history of reports, lost receivers and collections, the first deciding event fixes the slot, and a first report is conveyed with its own value or text |
| `ResultChannel.AnswerIsDeliveryIff` | ext/prosody/src/scheduler/result.rs:72-115 | the callback's answer is whether the report was delivered, if and only if the case is not a first success whose receiver is gone |
| `ResultChannel.SuccessIsAnsweredToNobody` | ext/prosody/src/scheduler/result.rs:84-92 | in that case the answer is true and nobody receives anything |
| `Processor.RubyProcessor.Submit` | ext/prosody/src/scheduler/processor.rs:97-145 | refuses exactly when the flag is set, and else queues the task with a fresh token and a block for the very handler that was submitted; all other objects stay |
| `Processor.RubyProcessor.Stop` | ext/prosody/src/scheduler/processor.rs:159-165 | sets the flag, and queues one Shutdown the first time unless the thread is gone or the log call raises |
| `Processor.RubyProcessor.AwaitSignal` | lib/prosody/processor.rb:34-37 | takes one signal from the task's own token and from no other |
| `Processor.RubyProcessor.RunBlock` | ext/prosody/src/scheduler/processor.rs:119-127 | the first call of a task's block runs the handler that was submitted for it and gives its value, every later one gives nil |
| `Processor.AsyncTaskProcessor.ProcessCommands` | lib/prosody/processor.rb:179-199 | with commands arriving while it runs, the loop pops them in the order of arrival, starts the tasks in front of the first Shutdown, ends exactly with it and leaves what is behind |
| `ProcessorSteps.StepIsOperation` | ext/prosody/src/scheduler/processor.rs:97-165 | every step of the system changes flag, queue, tokens and blocks as the operation of one of these methods does, or not at all |
| `ProcessorSteps.QueueIsFifo` | lib/prosody/processor.rb:159-185 | over any run, popped and waiting commands are the pushed ones in order |
| `Bridge.BridgeThread.PollOnce` | ext/prosody/src/bridge/mod.rs:228-268 | one poll is the specification poll for any commands sent meanwhile: cancelled if interrupted, else it runs what waits as soon as anything does |
| `Bridge.PollDecides` | ext/prosody/src/bridge/mod.rs:231-268 | exactly which result a poll gives, by interruption, waiting commands and living senders; where nothing arrives meanwhile it runs the first 16 waiting commands, or all |
| `Bridge.ThreadEnds` | ext/prosody/src/bridge/mod.rs:81-93 | once the last sender has gone, one uninterrupted poll for each 16 commands and one more end the thread with every sent command run |
| `Bridge.BridgeThread.Run` | ext/prosody/src/bridge/mod.rs:77-98 | over any polls, run and waiting commands are the sent ones in order, and an ended thread has run them all |
| `Bridge.PollInOrder` | ext/prosody/src/bridge/mod.rs:228-268 | a cancelled poll takes nothing, another runs 1 to 16 commands in order, and Shutdown means that all senders are gone and the channel is empty |
| `Bridge.BridgeLosesNothing` | ext/prosody/src/bridge/mod.rs:81-93 | the same over any sequence of polls |
| `WaitFor.EachCallerGetsItsOwnOutput` | ext/prosody/src/bridge/mod.rs:156-196 | for any number of callers and any order of completion, a returning caller has its own future's output, no output is found taken, and none is lost while its caller waits |
| `WaitFor.DeliveryReachesItsCallerOnly` | ext/prosody/src/bridge/callback.rs:51-59 | running a completion command gives its caller one result, holding its own future's output, and changes no other caller |
| `WaitFor.CallAndCompletionCount` | ext/prosody/src/bridge/mod.rs:156-185 | a call adds a waiting caller with a queue of its own, and a completed future's output is recorded and in flight to its caller |
| `Ownership.StepKeeps` | ext/prosody/src/util.rs:99-177 | wrapping, dropping on any thread, sending and running commands, and the end of the bridge keep every wrapped value in one place |
| `Ownership.ValuesAreReleasedOnce` | ext/prosody/src/util.rs:99-177 | a value is released at most once, freed only on a Ruby thread, leaked only if the bridge has ended, and without a wrapper it is either released or queued |
| `Ownership.DropDoesAtOnce` | ext/prosody/src/util.rs:99-121 | on a Ruby thread a drop frees at once and queues nothing; elsewhere it queues the value, or leaks it if the bridge has ended |
| `Ownership.RunHeadFrees` | ext/prosody/src/util.rs:111-119 | running a command on the Ruby thread frees what it owns, each value once, and takes the command off the channel |
| `Ownership.OrderlyEndLeaksNothing` | ext/prosody/src/util.rs:57-60 | unless the bridge thread dies before all senders are gone, nothing is ever leaked, and in the end every wrapped value has been freed exactly once |
| `Query.BuildQuery` | ext/prosody/src/handler/state/query.rs:93-162 | the builder that reassigns its query computes the translation, error cases included |
| `Query.Collect` | ext/prosody/src/handler/state/query.rs:44-63 | one pass over the hash leaves in each slot the last value given for its keyword, empty if that is nil, or fails if a name is unknown |
| `Query.AcceptedIffValid` | ext/prosody/src/handler/state/query.rs:42-260 | accepted if and only if every keyword is known, at most one edge is given per side, and every value is in its domain |
| `Query.RefusedAsFaulty` | ext/prosody/src/handler/state/query.rs:85-260 | a query is accepted, or refused with the error of its first fault: the direction, unknown keywords by name, prefix, start, end, range, limit |
| `Keys.TextLessIff` | README.md:664-674 | keys are ordered by their first difference, a key in front of its extensions |
| `Keys.StartsWithIff` | README.md:671 | a key has a prefix exactly if it is the prefix and something more |
| `Query.HashOrderIsIrrelevant` | ext/prosody/src/handler/state/query.rs:44-63 | two hashes with the same entries in any order, nil entries aside, translate alike |
| `QueryMeaning.TranslationIsExact` | README.md:664-674 | the accepted core query selects exactly what the keyword table asks for, read as a walk in the order that the direction token names |
| `QueryMeaning.WalkIs` | README.md:664 | a forward walk is the stored order, a backward one its reverse |
| `QueryMeaning.UnlimitedIsFilter` | lib/prosody/state.rb:225-235 | that walk keeps exactly the keys that pass each present keyword |
| `QueryLaws.DirectionsAreDual` | lib/prosody/state.rb:229-232 | a backward traversal is the reverse of the forward one with the edges swapped, under the same range |
| `QueryLaws.DescendingRangeIsEmpty` | README.md:670 | a descending range selects nothing in either direction |
| `QueryLaws.KeywordsNarrow` | README.md:674 | without a limit, adding keywords yields a subsequence |
| `QueryLaws.KeywordsAndLimitNarrow` | README.md:674 | adding any keywords, `limit:` among them, to a traversal without a limit narrows it |
| `QueryLaws.LimitIsPrefix` | README.md:672 | a limit yields a prefix in iteration order, of the given length or all |
| `QueryLaws.NarrowingUnderALimit` | README.md:674 | under a limit an added keyword narrows if and only if it keeps all that was selected or none that was cut off |
| `QueryLaws.StopsNarrowUnderALimit` | README.md:674 | `to:` and `before:` narrow under any limit |
| `QueryLaws.KeywordsCanWidenUnderALimit` | README.md:674 | `limit: 1` selects one key, and another with `from:` added |
| `Paging.AfterLastKeyIsTheRest` | README.md:676-686 | `after:` a selected key selects exactly what followed it |
| `Paging.PageAcceptedIff` | ext/prosody/src/handler/state/query.rs:178-260 | the option hash of a page is accepted if and only if its limit is in range and, behind the first page, no `from:` is given |
| `Paging.ReadInPages` | README.md:676-686 | the paging loop ends; its pages, translated and selected by the code, are non-empty, none over the limit, and concatenate to the unpaged traversal; refused if and only if the limit is out of range or `from:` stands in the way of a second page |
| `Scan.Cursor.NextChunk` | ext/prosody/src/handler/state/scan.rs:49-56 | gives at most 256 of the remaining items, perhaps none, or nil behind the end, or a read error that loses nothing |
| `Scan.ChunkingIsInvisible` | ext/prosody/src/handler/state/scan.rs:49-56 | whatever the chunks, the items are served in order, and all of them if no read fails |
| `Scan.Drive` | lib/prosody/state.rb:247-249 | yields the served items up to and including the first that the consumer breaks or raises at, and ends as the consumer or the cursor did |
| `Scan.Traverse` | lib/prosody/state.rb:243-252 | the same, ending broken or raised exactly as the last verdict was, with the cursor closed exactly once behind the last yield; without a read failure the flat sequence; an opener that raises closes nothing |
| `Scan.TraverseValues` | lib/prosody/state.rb:255-259 | yields the values of the entries that the traversal yields, in order, with one close behind them |
| `Windowing.ActivityWindowHandler.OnMessage` | examples/keyed_state_windowing.rb:18-29 | an attempt that fails anywhere leaves exactly the effects before the failure, and returns only if nothing failed |
| `Windowing.ActivityWindowHandler.OnTimer` | examples/keyed_state_windowing.rb:31-37 | the same for the timer |
| `Windowing.ActivityWindowHandler.OnExcise` | examples/keyed_state_windowing.rb:10-16 | the same for the excise |
| `WindowingRuns.OnlySuccessCommits` | README.md:690-694 | only a successful attempt changes the collections or counts as processed; notifications and timers of a failed one stand |
| `WindowingRuns.StepStaysSafeIff` | examples/keyed_state_windowing.rb:10-37 | an attempt leaves safety (backlog only in an open window, an open window only with a timer or an excise still to come) if and only if it gives up the last thing that would close the window |
| `WindowingRuns.RunIsSafeIff` | examples/keyed_state_windowing.rb:10-37 | a run is safe at every point if and only if no attempt in it does that |
| `WindowingRuns.SafeWhileRetried` | README.md:541 | every state is safe in every run in which timers and excises are retried until they succeed |
| `WindowingRuns.GivingUpCanStrand` | examples/keyed_state_windowing.rb:31-37 | a run of three attempts that ends with a message waiting and nothing to flush it |
| `WindowingRuns.StrandedMeansSilence` | examples/keyed_state_windowing.rb:22-23 | from a stranded window no run of messages ever notifies |
| `WindowingRuns.NeverTwoTimers` | README.md:623 | whatever is retried, the key never has more than one timer |
| `WindowingRuns.NothingIsForgotten` | README.md:620-627 | in every run a processed message is notified, waiting, pushed out by 100 later ones of its window, or excised; the backlog is the last 100 messages of the window |
| `WindowingRuns.OnlyCapacityLoses` | README.md:624 | without an excise, capacity is the only way to lose a message |
| `WindowingOrder.FirstNotificationsAreInOrder` | README.md:620-627 | whatever fails, messages are first notified in delivery order |
| `WindowingOrder.NoFailureNoDuplicate` | README.md:627 | if no attempt fails, each message is notified at most once and in order |
| `ErrorWrappers.HandlerClass.WrapErrors` | lib/prosody/handler.rb:100-123 | prepends a wrapper, or refuses an empty class list or an undefined method and changes nothing |
| `ErrorWrappers.OneDeclarationRescues` | lib/prosody/handler.rb:112-117 | over a throwing call, one declaration rewraps an error that has any of its classes among its ancestors, with the same message and as permanent or transient as declared, and lets every other error pass as it is |
| `ErrorWrappers.OtherMethodUntouched` | lib/prosody/handler.rb:111-122 | a declaration for another method changes nothing |
| `ErrorWrappers.MethodDefinedIff` | lib/prosody/handler.rb:106-108 | a method counts as defined exactly if the first module that has it has it public |
| `ErrorWrappers.ChainIsFold` | lib/prosody/handler.rb:100-123 | a call through any interleaving of declarations is the fold of the method's accepted ones, first declared to last |
| `ErrorWrappers.ValueAndMessageKept` | lib/prosody/handler.rb:112-116 | return values and error messages pass all wrappers unchanged |
| `ErrorWrappers.LastMatchDecides` | lib/prosody/handler.rb:112-117 | the raised class is that of the last wrapper that catches the error as it arrives there |
| `ErrorWrappers.SomeCatchIsLast` | lib/prosody/handler.rb:112-117 | unless no wrapper catches the error, there is such a last one |
| `ErrorWrappers.FirstMatchDecides` | lib/prosody/handler.rb:112-117 | if no wrapper catches what the others raise, the first match decides |
| `ErrorWrappers.ReportedAsItEnded` | lib/prosody/processor.rb:267-284 | a value is reported as it is, an ordinary error with its own word on permanence, a Stop without one, anything else not at all |
| `ErrorWrappers.GivenUpIffPermanent` | ext/prosody/src/scheduler/result.rs:83-115 | an event is not retried if and only if the last catching wrapper is permanent, or none catches and the error itself is permanent |
| `ErrorWrappers.CancelGivenUpIff` | lib/prosody/processor.rb:272-284 | a cancelled handler that lets the Stop through is given up if and only if the last wrapper that catches it is permanent |
| `ErrorWrappers.CatchingExceptionGivesUpCancelled` | lib/prosody/processor.rb:272-284 | a cancel is retried in a plain class and given up behind a wrapper that declares `Exception` permanent |
| `HandlerValidation.BindsIffShares` | lib/prosody/handler.rb:188-198 | a parameter list binds n positional arguments if and only if they can be shared out so that every parameter gets what its kind takes |
| `HandlerValidation.BindsIffCountsFit` | lib/prosody/handler.rb:188-198 | a parameter list binds n positional arguments if and only if its counts fit |
| `HandlerValidation.AcceptsIffBindsTwo` | lib/prosody/handler.rb:188-198 | the check of the code is binding of two arguments |
| `HandlerValidation.MethodBehindWrappers` | lib/prosody/handler.rb:177-181 | the loop ends at the first definition that is not a wrapper's; its inner raise is unreachable |
| `HandlerValidation.ValidateMethod` | lib/prosody/handler.rb:171-185 | accepts if and only if some class before EventHandler defines the method and the definition that a call reaches binds two; else names the right complaint |
| `HandlerValidation.ValidateHandler` | lib/prosody/handler.rb:161-169 | accepts if and only if on_message, on_excise and on_timer are accepted; else complains about the first of them that is not |
| `HandlerValidation.AcceptsIffReachedAndInClass` | lib/prosody/handler.rb:171-185 | acceptance against the reading by lookup order alone, with the exact difference |
| `HandlerValidation.AcceptsIffReached` | lib/prosody/handler.rb:171-185 | the two agree unless only the singleton class defines the method |
| `HandlerValidation.SingletonMethodIsRefused` | lib/prosody/handler.rb:172-176 | an object whose own singleton method is reached by a call and yet refused |
| `TimerRounding.AcceptedIff` | ext/prosody/src/handler/context/mod.rs:412-438 | a time converts if and only if it lies in [0, 2^32 - 1/2) seconds; the last half second before 2^32 is the overflow, and beyond 64 bits the conversion itself fails |
| `TimerRounding.IsNearest` | ext/prosody/src/handler/context/mod.rs:25-27 | the result is the one second within half a second of the time, the later of a tie |
| `TimerRounding.ThresholdIsHalf` | ext/prosody/src/handler/context/mod.rs:25-27 | the nanosecond threshold decides as the exact fraction would, although nanoseconds are truncated |
| `TimerRounding.IsMonotone` | ext/prosody/src/handler/context/mod.rs:412-438 | later times never convert to earlier seconds |
| `TimerRounding.WholeSecondsRoundTrip` | ext/prosody/src/handler/context/mod.rs:458-467 | a time made from seconds converts back to them |
| `TimerRounding.SameTimerIff` | ext/prosody/src/handler/context/mod.rs:412-438 | two times name the same timer if and only if they round to the same second |
| `TimerRounding.TimerContext.Schedule` | ext/prosody/src/handler/context/mod.rs:148-176 | an accepted time is listed afterwards, as a second within half a second of it; a refused one changes nothing |
| `TimerRounding.TimerContext.Unschedule` | ext/prosody/src/handler/context/mod.rs:235-262 | unscheduling a listed time takes exactly that time off the list |
| `TimerRounding.TimerContext.ClearAndSchedule` | ext/prosody/src/handler/context/mod.rs:190-219 | an accepted time is listed afterwards alone, as a second within half a second of it; after a refused one the list is as before |
| `TimerRounding.TimerContext.ScheduledTimes` | ext/prosody/src/handler/context/mod.rs:315-355 | every listed time converts back to one of the timers, and every timer is named by a listed time |
| `TimerRounding.UnscheduleNamesExactly` | ext/prosody/src/handler/context/mod.rs:235-262 | unscheduling a listed time takes exactly that time off the list |
| `TimerRounding.ScheduledIsListed` | ext/prosody/src/handler/context/mod.rs:148-176 | a scheduled time is listed as its nearest second |

## Assumptions

- `Async` runs a new child at once and re-queues the parent; `Task#stop` raises `Async::Stop` in a
  suspended fiber at the point where it is suspended; `Async::Barrier#wait` re-raises the error of a
  failed task. The async gem is not part of this model.
- The result callback does not yield, a task does not stop itself, the tracing set-up of
  `handle_execute` does not raise, and neither do finishing a span and starting the worker and watcher
  fibers of a started task. Log calls, Sentry, `barrier.async` in the loop and user code may raise.
- User code takes finitely many steps: `fuel` bounds the yields of a task, with any bound.
- Ruby collects the callback at some point after the task has ended or been dropped (`Collect`), or never;
  a queue, and the callbacks in it, lives as long as the scheduler whose callers wait.
- A timer counts as armed until its attempt has succeeded or is given up, and a failed message is tried
  again before the next message of its key, unless it is given up.
- Strings are ordered by code point, and a Ruby Time is an exact rational number of seconds.

## Left out

- Kafka, Cassandra and the Prosody core (fair scheduling, deferral, deduplication, the store): a query
  runs over an abstract sorted sequence, and timers are an abstract set.
- Ownership, WaitFor and the lifecycle are modelled on values, as transition systems: their subject is
  the interleaving of threads and fibers, which no one method body has.
- Processor.RubyProcessor.AwaitSignal: states what a wait that returns does; an empty queue blocks, and that blocking is
  the watcher's `Waiting` state in `Lifecycle`.
- Processor.AsyncTaskProcessor.ProcessCommands: the fibers it starts, and a raise that ends it, are the subject of `Lifecycle`.
- A bridge that ends while tasks wait: its errors are classified as retried, but no run of the
  lifecycle produces them.
- Exceptions outside `StandardError`: a worker that raises one ends like one whose rescue body raises; that it may
  also tear down the reactor thread, and a Ruby process that exits or forks, are not modelled.
- A panic in Rust code without the GVL, and its re-raise.
- Spans beyond being finished once, logging, Sentry, telemetry and text formats.
- Implicit string conversion (`to_str`) of query values: a keyword value is a string, an integer, a range, nil or something else.
- Unwinding a traversal through an Enumerator that is never resumed.
- lib/prosody/state/deque.rb and lib/prosody/state/map.rb beyond traversal and paging: thin calls whose
  laws would only restate sequence and map lookup.
- Published readers, TTL, `commit` and `rollback`, configuration, registration, the native stubs and the type signatures.
- `undef_method`, `respond_to_missing?` and method visibility in handler validation: an owner has a method or has not.
- Notifications of the windowing handler that fail half-way: a notification is one effect.
