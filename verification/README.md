# Verification model of the NexaAssist backend and its realtime client

A Dafny model of the parts of the system whose correctness does not show in any single
function: the job queue that several workers share, the realtime protocol that has no request
identifiers, text cutting, rate limiting, the context window, workflows, metrics, spans, cost
accounting and the answering pipeline. Code that changes state step by step is modelled as
classes and loops, each proved against a specification; the lemmas then say what the source
promises about that specification, for every input and every run.

Check everything with `dafny verify dfyconfig.toml`.

## What is proved, file by file

* `Jobs`, `MemoryQueue`, `RedisQueue` – the two queue backends. For every serial sequence of
  calls they give the same answers and agree on depth and dead-letter order; the memory queue
  hands jobs out first in, first out.
* `JobHistory` – what the calls of a run say of each job, told without the queue: who enqueued it,
  how often it was handed out since, how its last attempt ended. After any run every stored record
  and every answer is exactly that, field by field.
* `RedisInterleaving` – any number of workers over one Redis queue, interleaved command by
  command, each of which may stop for good between any two commands (a worker that carries on
  after a failed command counts as a new worker). Every enqueued job is always in exactly one
  place; a job being processed has one holder; no record read for an update changes before the
  update is written; `attempts` counts exactly the dequeues that reached their write. Seen through
  an abstraction that lets a dequeue take effect at its `LMOVE`, every such run is a run of the
  memory queue with the same answers; `depth` and `dead_lettered` read what that queue holds, and
  `get` does exactly outside the gap between a job's `LMOVE` and its `SET`. A worker is handed the
  name, the payload and the limit that the job was enqueued with.
* `Worker` – each run spends at least one attempt of a finite budget, so a drain with a large
  enough limit empties the queue and settles every job; what each run met decides how it ended.
* `Frames`, `Answers`, `Page`, `Realtime` – one page, one serial server, two ordered channels.
  Every question is settled once, in order, by its own answer, its own timer or a close, and the
  deltas shown concatenate to the answer's text, as long as no timer of an earlier question fires
  on an open one and no question is put on the socket while an earlier one, given up on, is still
  being answered. That condition is exact: either of those two steps, and no other, allows a
  question to be settled by what belongs to another. Both are reached from a blank page. In every
  run, those included, the page itself stays in order, and the answers still owed are those of the
  last questions, each once and in the order asked.
* `Reading` – the server's frames as the page's hooks read them: a reply arrives whole, with its
  sources, in the turn it was streamed into; each failure is shown in its own words. Questions stay
  in the conversation that the last reply over HTTP named, in every orderly run and in any run in
  which the reader does not start over.
* `Text`, `Chunking` – a text is cut at its blank lines, in the one possible way; greedy packing
  keeps the words and uses the fewest parts possible.
* `RateLimit` – both limiters decide as a counter that never forgets would, at most twice the
  limit passes in any interval of one window's length, and that bound is reached. Redis reads its
  clock in one round trip and counts in the next; its count is exact precisely while the window's
  first counter lives, and for every request counted before the window it read is over.
* `ContextWindow` – the window is the longest suffix within the budget, and its text stays within
  the budget exactly when nothing was truncated or the budget is at least 4.
* `ParamSyntax`, `Workflows` – what the validator guarantees is what the runner needs.
* `Metrics` – the series tracked are the first ones of each metric, each counted in full; labels
  name the same series exactly when they read alike.
* `Tracing` – a run's record is a forest that holds every span it opened exactly once, under the
  span that was innermost then, with the error of the last event aimed at it.
* `Cost` – a ledger of n priced calls is within n microdollars of the exact sum.
* `Intents`, `Policy`, `Routing`, `Escalation`, `Assistant` – what a customer reads, across all
  stages of the answering pipeline.

## Where the code and its documentation differ

The model follows the code.

* `answers.py:64-71` says that whitespace stays on the piece before it; the code leaves it at the
  front of the next piece (`Answers.GoodBreak`).
* `useRealtime.ts:159-177`: a Complete or Error frame clears `awaitingRef` but leaves the answer
  timer armed, so it can time out the next question (`Realtime.StaleTimerHitsNextQuestion`).
* After a timeout the old answer is still on its way and is taken for the next question's
  (`Realtime.LateAnswerMeetsNextQuestion`).
* `useConversation.ts:204-237,339-346`: after a timeout and "new conversation", the old answer can
  take the next question's place and moves the page back into the conversation that was left
  (`Reading.LeftConversationIsReached`).
* `useRealtime.ts:172-177`: the hook reports an Error frame whether or not a question is open, which
  would fail a question at work over HTTP (`Page.FrameKeepsUi`). No such frame ever arrives: a
  question goes over HTTP only while the socket is down (`Realtime.PageStaysInOrder`).
* `useConversation.ts:261`: `send` trusts the `sending` its render captured. A call accepted on the word
  of an older render puts a second question to work (`Page.SendKeepsUiExactly`).
* `answers.py:109-113` says that nothing raises out of `answer`; without a pipeline, a provider's
  exception that is not an `LLMError` does, and no frame ends that answer (`Answers.ProseEndings`).
* `answers.py:236-257`: prose that was streamed in full but could not be recorded is ended twice,
  by an Error and then by a Complete (`Answers.ProseEndings`).
* `redis_limiter.py:75-100`: a request counted more than a window after its counter was created
  starts a fresh count, although it read an earlier window (`RateLimit.StragglerIsUndercounted`).
* `definition.py:17`: the name pattern ends in `$`, which also accepts a final newline; a step with
  such a name cannot be referenced back (`ParamSyntax.ReferenceRoundTrip`).
* `context.py:121`: for budgets of 1 to 3 a truncated turn is over its budget, because the marker
  alone is 13 characters (`ContextWindow.TruncationFits`).
* `chunking.py:28-29`: the fallback is never reached (an `assert false` in `Chunking.ChunkText`).
* `redis_limiter.py:94-100` repeats the decision of `limiters.py:97-112` instead of sharing it; the
  two are proved equal.
* `handoff.py:106-110`: with the default rules and one confidence floor the notice is never
  appended, because whatever calls for a person has already replaced the reply
  (`Assistant.EscalatedIsReviewReply`).

## Model

| member | source | states |
|---|---|---|
| Jobs.BuildJob | backend/app/jobs/base.py:199-218 | a job is built exactly from a positive attempt limit, a well-formed name and a storable payload, starts pending with no attempts spent, and a refusal names what was wrong |
| Jobs.AllowedExactly | backend/app/jobs/base.py:31 | the characters a name may use, spelled out |
| MemoryQueue.InMemoryJobQueue.Enqueue | backend/app/jobs/memory.py:40-52 | stores the new job and puts it at the back, or raises and changes nothing |
| MemoryQueue.InMemoryJobQueue.Dequeue | backend/app/jobs/memory.py:54-71 | takes the first identifier that is stored, skipping others, marks it running and counts the attempt |
| MemoryQueue.InMemoryJobQueue.Complete | backend/app/jobs/memory.py:73-79 | marks a stored job succeeded and clears its error |
| MemoryQueue.InMemoryJobQueue.Fail | backend/app/jobs/memory.py:81-103 | buries an exhausted or non-retryable job, and puts any other at the back of the queue |
| MemoryQueue.InMemoryJobQueue.Get | backend/app/jobs/memory.py:105-106 | the stored job, or not found |
| MemoryQueue.InMemoryJobQueue.Depth | backend/app/jobs/memory.py:108-109 | how many jobs wait |
| MemoryQueue.InMemoryJobQueue.DeadLettered | backend/app/jobs/memory.py:111-112 | the buried jobs in the order they were buried |
| MemoryQueue.StepKeepsValid | backend/app/jobs/memory.py:40-112 | every call leaves each listed identifier stored under itself |
| MemoryQueue.FirstInFirstOut | backend/app/jobs/memory.py:54-103 | a job at index k is handed out by exactly the (k+1)-th dequeue, whatever other calls come between |
| MemoryQueue.RetryWaitsItsTurn | backend/app/jobs/memory.py:96-103 | a retried job is handed out after everything that was waiting |
| MemoryQueue.EnqueuedWaitsItsTurn | backend/app/jobs/memory.py:40-71 | a new job is handed out after everything that was waiting when it came |
| MemoryQueue.DepthIsWhatIsLeft | backend/app/jobs/memory.py:54-109 | `depth` answers how many dequeues in a row are still given a job |
| JobHistory.StepIsTold | backend/app/jobs/memory.py:40-112 | one call more keeps every record and the dead list as the calls tell them, and its answer says so too |
| JobHistory.RecordsTellTheRun | backend/app/jobs/memory.py:40-112 | after any run each record has the name, payload and limit of its enqueue, the attempts of its dequeues since, the status and error of its last call; the next answer is that record, and the dead list is the jobs given up on, in order |
| JobHistory.RefusalChangesNothing | backend/app/jobs/memory.py:73-122 | a call that raises leaves the queue as it was |
| RedisQueue.RedisJobQueue.Enqueue | backend/app/jobs/redis_queue.py:95-109 | one transaction; an observer sees what the memory queue would do |
| RedisQueue.RedisJobQueue.Dequeue | backend/app/jobs/redis_queue.py:111-130 | LMOVE, GET, SET in order; an observer sees what the memory queue would do |
| RedisQueue.RedisJobQueue.Complete | backend/app/jobs/redis_queue.py:132-141 | GET, then one transaction; an observer sees what the memory queue would do |
| RedisQueue.RedisJobQueue.Fail | backend/app/jobs/redis_queue.py:143-174 | GET, then the burying or the requeueing transaction; an observer sees what the memory queue would do |
| RedisQueue.RedisJobQueue.Get | backend/app/jobs/redis_queue.py:176-181 | the stored job, or not found |
| RedisQueue.RedisJobQueue.Depth | backend/app/jobs/redis_queue.py:183-185 | the length of the pending list |
| RedisQueue.RedisJobQueue.DeadLettered | backend/app/jobs/redis_queue.py:187-197 | the records of the dead list in order, without identifiers that have none |
| RedisQueue.StepRefines | backend/app/jobs/redis_queue.py:95-197 | each call has the effect and the answer of the memory queue's, the processing list being hidden |
| RedisQueue.SerialRefinement | backend/app/jobs/redis_queue.py:95-197 | every serial sequence of calls gets equal answers from both backends and leaves equal queues |
| RedisInterleaving.StepKeepsInv | backend/app/jobs/redis_queue.py:95-174 | every command, and every crash, keeps the system invariant |
| RedisInterleaving.RunKeepsInv | backend/app/jobs/redis_queue.py:95-174 | so does every run |
| RedisInterleaving.NothingIsForgotten | backend/app/jobs/redis_queue.py:95-109 | the stored identifiers are exactly those enqueued |
| RedisInterleaving.EachJobIsInOnePlace | backend/app/jobs/redis_queue.py:10-24 | an enqueued job is in exactly one of pending, processing, dead and SUCCEEDED; any other identifier is in none |
| RedisInterleaving.OneHolder | backend/app/jobs/redis_queue.py:111-130 | a processing identifier has exactly one holder, only held identifiers are processing, and a holder that has not crashed can go on |
| RedisInterleaving.AttemptsAreCounted | backend/app/jobs/redis_queue.py:119-123 | `attempts` is the number of dequeues that reached their write, never above the maximum, and each attempt ends at most once |
| RedisInterleaving.NoLostUpdate | backend/app/jobs/redis_queue.py:119-174 | what a worker read with GET is still what is stored when its SET or transaction comes |
| RedisInterleaving.InterleavingRefinesMemory | backend/app/jobs/redis_queue.py:95-174 | every interleaved run is, through the abstraction, a run of the memory queue: each command is one call or none, with the same states and the same answers |
| RedisInterleaving.InterleavingIsTold | backend/app/jobs/redis_queue.py:95-174 | so what the calls of an interleaved run say of each job is what the abstraction holds, field by field |
| RedisInterleaving.TakeRefines | backend/app/jobs/redis_queue.py:111-130 | a dequeue takes effect at its LMOVE, answering with the job as its worker will be handed it |
| RedisInterleaving.CommitRefines | backend/app/jobs/redis_queue.py:132-174 | a completion or failure takes effect at its transaction, and returns the job the memory queue would return |
| RedisInterleaving.ReadersAgreeExactly | backend/app/jobs/redis_queue.py:176-185 | at any point of a run `depth` reads what the memory queue would, and `get` does exactly unless the job is between its LMOVE and its SET |
| RedisInterleaving.DeadLetteredIsAtomic | backend/app/jobs/redis_queue.py:187-197 | whatever happens between its two commands, `dead_lettered` answers for the moment of the first |
| RedisInterleaving.DeadStays | backend/app/jobs/redis_queue.py:146-160 | a buried job stays buried and its record does not change |
| RedisInterleaving.SuccessStays | backend/app/jobs/redis_queue.py:132-141 | a job that succeeded stays so and its record does not change |
| RedisInterleaving.QuietSystemIsMemory | backend/app/jobs/redis_queue.py:95-174 | when nobody holds a job, the processing list is empty and everything else is what the memory queue would hold after the same calls |
| RedisInterleaving.HeldUntilCommit | backend/app/jobs/redis_queue.py:111-174 | until its holder commits, a held job is its holder's and its record does not change |
| RedisInterleaving.DeliveredAsDequeued | backend/app/jobs/redis_queue.py:111-130 | the job a worker runs is the one the memory dequeue would have returned at the LMOVE |
| RedisInterleaving.WorkingAsProduced | backend/app/jobs/redis_queue.py:95-130 | the job a worker runs has the name, the payload and the attempt limit it was enqueued with |
| Worker.JobWorker.RunOnce | backend/app/jobs/worker.py:83-92 | one attempt of the first waiting job, recorded; nothing when the queue is empty |
| Worker.JobWorker.Dispatch | backend/app/jobs/worker.py:112-211 | exactly one outcome for a dequeued job, with its reason, and the queue changed accordingly |
| Worker.JobWorker.Drain | backend/app/jobs/worker.py:94-108 | runs until the queue is empty or the limit is spent |
| Worker.EnqueuedWaits | backend/app/jobs/memory.py:40-52 | a new job joins the waiting jobs, which stay distinct and ready |
| Worker.RunSpends | backend/app/jobs/worker.py:83-211 | each run lowers the attempts still to spend and keeps the waiting jobs ready and distinct |
| Worker.DrainEmpties | backend/app/jobs/worker.py:94-108 | a limit of at least the attempts still to spend empties the queue, whatever the handlers do |
| Worker.DrainCountsAttempts | backend/app/jobs/worker.py:94-211 | attempts grow by exactly the runs of the job and never pass its maximum |
| Worker.DrainSettles | backend/app/jobs/worker.py:94-211 | a job no longer waiting succeeded, or was buried by a run that met an error no retry can fix or spent its last attempt |
| Worker.DrainSettlesEverything | backend/app/jobs/worker.py:94-211 | with a large enough limit this holds of every job that waited |
| Worker.DrainDecides | backend/app/jobs/worker.py:112-211 | of every run of a drain: which attempt of which job it was, that it succeeded exactly when the handler did, that it was dead-lettered exactly for a failure no retry can fix or on the last attempt, and what its error says |
| Worker.DrainNotes | backend/app/jobs/worker.py:94-211 | a drain leaves each job as its runs noted it, one after another |
| Worker.NotingKeeps | backend/app/jobs/worker.py:94-211 | no run changes a job's name, payload or limit |
| Worker.TimeoutIsNamed | backend/app/jobs/worker.py:143-149 | the error of a handler that ran out of time says how long it had |
| Answers.TokensJoin | backend/app/realtime/answers.py:75 | the tokens of the split concatenate to the text |
| Answers.TokensAlternate | backend/app/realtime/answers.py:75 | words and whitespace alternate, and only the outermost words may be empty |
| Answers.Chunk | backend/app/realtime/answers.py:64-81 | the pieces concatenate to the text; for a positive size none is empty, all but the last are long enough, no word is cut, and each ends at the first place where it may |
| Answers.CutIsUnique | backend/app/realtime/answers.py:64-81 | these conditions leave one possible cut |
| Answers.AnswerStreamer.Answer | backend/app/realtime/answers.py:102-133 | a busy streamer sends one error; otherwise the frames of the pipeline's answer or, without a pipeline, of prose go out; the streamer is free again even when a provider's exception escapes |
| Answers.AnswerStreamer.AnswerGrounded | backend/app/realtime/answers.py:135-199 | deltas that concatenate to the reply and then one Complete, or exactly one Error |
| Answers.AnswerStreamer.StreamProse | backend/app/realtime/answers.py:201-257 | the deltas as the model produces them and a Complete of their concatenation, with an Error for whatever fails, and nothing more when an exception escapes |
| Answers.GroundedEndsOnce | backend/app/realtime/answers.py:135-199 | a grounded answer has exactly one terminating frame |
| Answers.ProseEndings | backend/app/realtime/answers.py:201-257 | prose has no terminating frame exactly when an exception escapes, two exactly when it was streamed in full and could not be recorded, and otherwise one |
| Page.Hooks.Ask | frontend/src/realtime/useRealtime.ts:254-279 | refuses while a question is open or the socket is not, and otherwise opens the next one with its own timer armed |
| Page.Hooks.OnMessage | frontend/src/realtime/useRealtime.ts:151-183 | what each frame does to the page, a terminating frame leaving the timer armed; the page stays in order exactly unless an Error meets a question at work over HTTP |
| Page.Hooks.OnClose | frontend/src/realtime/useRealtime.ts:185-198 | a close settles and fails the open question, leaving nothing pending and the page in order |
| Page.Hooks.OnTimer | frontend/src/realtime/useRealtime.ts:267-274 | a timer fails whichever question is open when it fires, leaving nothing pending and the page in order |
| Page.Hooks.Settle | frontend/src/realtime/useRealtime.ts:238-244 | no question is open and the latest timer can no longer fire |
| Page.Hooks.AppendDelta | frontend/src/conversation/useConversation.ts:194-202 | what is shown for the open question grows by the text, in the streamed turn only |
| Page.Hooks.CompleteStream | frontend/src/conversation/useConversation.ts:204-237 | the streamed turn takes the final text, sources and flags, every pending turn is sent, the conversation is adopted, and nothing stays pending |
| Page.Hooks.FailStream | frontend/src/conversation/useConversation.ts:239-256 | the empty placeholder is dropped, every pending turn fails and the failure is shown |
| Page.Hooks.Send | frontend/src/conversation/useConversation.ts:258-297 | nothing for blank text or when the calling render was sending; otherwise the question is shown and goes over the socket or, failing that, over HTTP; the page stays in order exactly unless a question was at work already |
| Page.Hooks.OnResponse | frontend/src/conversation/useConversation.ts:299-334 | the HTTP reply is added whole and its question sent, or the question fails with the kind of failure its status tells; nothing stays pending |
| Page.Hooks.Reset | frontend/src/conversation/useConversation.ts:339-346 | forgets the turns, the stream, the conversation and the failure |
| Page.FrameKeepsUi | frontend/src/realtime/useRealtime.ts:151-183 | a frame leaves a page in order exactly unless it is an Error that meets a question at work over HTTP |
| Page.SendKeepsUi | frontend/src/conversation/useConversation.ts:258-297 | a question sent from the latest render keeps one question at work, only its turns pending, and an empty turn last to stream into |
| Page.SendKeepsUiExactly | frontend/src/conversation/useConversation.ts:258-297 | a send leaves a page in order exactly unless it is accepted on the word of an older render while a question is at work |
| Page.CompleteKeepsUi | frontend/src/conversation/useConversation.ts:204-237 | the final text replaces what was shown, and nothing stays pending |
| Reading.DeltasAreRead | frontend/src/conversation/useConversation.ts:194-202 | deltas that reach an open question append to what its turn shows, and change nothing else |
| Reading.ReplyIsRead | backend/app/realtime/answers.py:165-199 | once the frames of a grounded reply are read, its turn shows the text, the sources and whether a person was asked; every other turn is as it was and sent, the conversation is adopted and the page is free |
| Reading.RefusalIsRead | backend/app/realtime/answers.py:135-165 | a refusal is shown in the application's words and any other failure in fixed ones; the empty turn is gone and the question failed |
| Reading.ProseIsRead | backend/app/realtime/answers.py:201-257 | prose that was streamed and recorded is shown as it was streamed, without sources |
| Reading.BrokenProseIsRead | backend/app/realtime/answers.py:201-257 | prose that breaks off leaves what was streamed, as failed |
| Reading.RefusedProseIsRead | backend/app/realtime/answers.py:201-257 | a question that cannot be recorded is not answered, and the reader is told why |
| Reading.UnrecordedProseIsRead | backend/app/realtime/answers.py:201-257 | prose streamed in full but not recorded stays as failed with the reason, and the Complete that follows changes nothing |
| Reading.QuestionIsAnswered | backend/app/realtime/answers.py:135-199 | what the reader gets for any question: its answer, or the refusal of a malformed one |
| Reading.CompleteSumsUp | backend/app/realtime/answers.py:165-199 | the Complete frame comes last, says what its deltas say and counts them |
| Reading.ProseSumsUp | backend/app/realtime/answers.py:201-257 | so does that of prose; a provider's failure comes last under its code |
| Reading.QuestionIsShown | frontend/src/conversation/useConversation.ts:258-297 | a question is shown trimmed and pending, over the socket with an empty turn to stream into |
| Reading.ResponseIsRead | frontend/src/conversation/useConversation.ts:299-321 | a reply over HTTP is added whole, its question is sent and its conversation adopted |
| Reading.FailedRequestIsRead | frontend/src/conversation/useConversation.ts:94-110 | a failed request fails its question only; signing in is asked for exactly when the API says so, and a retry is offered exactly for the kinds where it can help |
| Reading.CloseIsRead | frontend/src/realtime/useRealtime.ts:185-198 | a close disarms the latest timer and fails the open question in its own words; without one nothing on screen changes |
| Reading.TimerIsRead | frontend/src/realtime/useRealtime.ts:267-274 | so does a timer that fires |
| Reading.ResetIsRead | frontend/src/conversation/useConversation.ts:339-346 | starting over forgets what was said but not that a question is at work |
| Reading.QuestionsStayInConversation | frontend/src/conversation/useConversation.ts:204-321 | in every orderly run, and in any run without starting over, the page and its next question are in the conversation that the last reply over HTTP named |
| Reading.LeftConversationReturns | frontend/src/conversation/useConversation.ts:204-237 | whenever an answer is about to come too late, starting over and asking again moves the page into that answer's conversation |
| Reading.LeftConversationIsReached | frontend/src/conversation/useConversation.ts:339-346 | from a blank page a run leads back into a conversation that was left |
| Realtime.StepKeepsInv | backend/app/api/v1/realtime.py:242-290 | a step keeps the protocol invariant exactly unless it fires a stale timer on an open question or lets a question overtake one still being answered |
| Realtime.RunKeepsInv | backend/app/api/v1/realtime.py:242-290 | every run without such steps keeps it, timeouts included |
| Realtime.MatchingIsLostExactly | frontend/src/realtime/useRealtime.ts:151-198 | after a step, outcomes keep meeting their questions however an orderly run goes on, exactly if the step was orderly |
| Realtime.OvertakingMismatches | frontend/src/realtime/useRealtime.ts:254-279 | a question that overtakes another can be settled by the other's answer |
| Realtime.EachAnswerMeetsItsQuestion | frontend/src/realtime/useRealtime.ts:151-198 | questions are settled once each, in order, by their own answers, closes or timers; and what is on the way answers the last one |
| Realtime.StepKeepsPage | frontend/src/conversation/useConversation.ts:194-346 | every step keeps the page in order and lets nothing come over the socket while a question is at work over HTTP |
| Realtime.PageStaysInOrder | frontend/src/conversation/useConversation.ts:194-346 | in every run, orderly or not, the page sends exactly while one question is at work, shows nothing pending otherwise, and no Error frame meets a question at work over HTTP |
| Realtime.ServedEndsOnce | backend/app/realtime/answers.py:135-199 | every question served, valid or not, ends once, with its own end |
| Realtime.AnswersComeInOrder | backend/app/api/v1/realtime.py:242-290 | in every run, orderly or not, no answer is lost, doubled or passed by another: what is still owed are the last questions put on the socket, each once and in order, until a close forgets them |
| Realtime.DeltasAddUp | frontend/src/conversation/useConversation.ts:194-237 | a Complete that meets a waiting page is for its open question and its text is exactly what the turn accumulated; one that comes too late changes nothing |
| Realtime.AnswerIsRest | backend/app/realtime/answers.py:182-199 | every question, valid or not, is answered by deltas that complete the shown text and one terminating frame |
| Realtime.TimeoutLeavesAnAnswerInFlight | frontend/src/realtime/useRealtime.ts:267-274 | a timer that fires on an open question frees the page and leaves the answer on its way |
| Realtime.StaleTimerHitsNextQuestion | frontend/src/realtime/useRealtime.ts:159-177 | from every state in which an answer is about to be completed, the run that delivers it, asks again and fires its timer is possible and times out the next question |
| Realtime.LateAnswerMeetsNextQuestion | frontend/src/realtime/useRealtime.ts:159-177 | from every such state, the run that times out, asks again and delivers is possible and settles the next question by the old answer |
| Realtime.EndMeansAnswerAtHand | frontend/src/realtime/useRealtime.ts:159-177 | a terminating frame at the front of the channel of a waiting page answers its open question, whose timer is armed |
| Realtime.BothFailuresHappen | frontend/src/realtime/useRealtime.ts:254-279 | from a blank page, two runs in which the second question is settled by what belongs to the first |
| Chunking.SplitLong | backend/app/rag/chunking.py:33-45 | the parts are the greedy cut of the words: in order, each within the size or a single word, none with room for the next part's first word |
| Chunking.GreedyIsFewest | backend/app/rag/chunking.py:33-45 | no cut of the same words into fitting parts has fewer parts |
| Chunking.GreedyStaysAhead | backend/app/rag/chunking.py:37-42 | a cut that lags behind the greedy one needs at least as many more parts |
| Chunking.ParagraphWords | backend/app/rag/chunking.py:18 | splitting at blank lines keeps the words |
| Chunking.ParagraphsAreCut | backend/app/rag/chunking.py:18 | the paragraphs, with blank lines between them, are the text; each ends at the first blank line left and none contains one |
| Chunking.CutAtBlankLinesIsUnique | backend/app/rag/chunking.py:18 | these conditions leave one possible cut |
| Chunking.OfParagraph | backend/app/rag/chunking.py:18-24 | a blank paragraph yields nothing, a short one itself, a long one its greedy parts |
| Chunking.ChunkText | backend/app/rag/chunking.py:12-30 | the chunks are those of each paragraph between blank lines in order, hold exactly the words of the text, and are nonblank and within the size unless a single word |
| Text.WordsOfJoin | backend/app/rag/chunking.py:36-37 | words joined by spaces are split into the same words |
| Text.WordsApart | backend/app/rag/chunking.py:36 | whitespace anywhere separates the words before it from those after it |
| RateLimit.Validate | backend/app/ratelimit/limiters.py:84-94 | a limiter is built exactly from a positive limit and a positive window |
| RateLimit.RetryAfterIsExact | backend/app/ratelimit/limiters.py:97-112 | the wait is the least whole number of seconds that reaches the next window, between 1 and the window (section 10.2.3 of RFC 9110) |
| RateLimit.RemainingIsWhatIsLeft | backend/app/ratelimit/limiters.py:97-112 | of the requests that a key makes in the same window afterwards exactly the first `remaining` are allowed, whatever comes between; only a refusal has a wait |
| RateLimit.InMemoryRateLimiter.Check | backend/app/ratelimit/limiters.py:64-71 | with a nondecreasing clock, the decision is that of a counter that never forgets |
| RateLimit.InMemoryRateLimiter.Prune | backend/app/ratelimit/limiters.py:73-81 | only counts of earlier windows are dropped |
| RateLimit.RedisRateLimiter.Check | backend/app/ratelimit/redis_limiter.py:75-100 | a request that reads the clock and is counted later is decided by the increments of its window's counter since that was last created |
| RateLimit.RedisRateLimiter.WindowNow | backend/app/ratelimit/redis_limiter.py:102-117 | the server's window and the time elapsed in it |
| RateLimit.IncrementIsFaithful | backend/app/ratelimit/redis_limiter.py:80-92 | INCR with EXPIRE NX answers with that count, and what is stored for every counter is the count and lifetime since its creation |
| RateLimit.CountIsExact | backend/app/ratelimit/redis_limiter.py:75-100 | the count is that of all requests of the window exactly while less than one window's length has passed since the first of them was counted |
| RateLimit.PromptCountIsExact | backend/app/ratelimit/redis_limiter.py:75-100 | so it is for every request counted before the window it read is over: no count read again is lost |
| RateLimit.StragglerIsUndercounted | backend/app/ratelimit/redis_limiter.py:75-100 | a request counted after that starts a fresh count |
| RateLimit.PromptIsVerdict | backend/app/ratelimit/redis_limiter.py:75-100 | a request counted before the window it read is over gets the verdict of a counter that never forgets, whatever the delays of the others |
| RateLimit.RedisSlidingBound | backend/app/ratelimit/redis_limiter.py:75-100 | when every request is so counted, Redis lets at most twice the limit through in any interval of one window's length |
| RateLimit.SameDecisions | backend/app/ratelimit/redis_limiter.py:75-100 | both limiters answer all such requests alike when the local one is asked at the readings and these do not go back |
| RateLimit.WindowAllowsLimit | backend/app/ratelimit/limiters.py:64-112 | in a window exactly the first `limit` requests of a key are allowed |
| RateLimit.SlidingBound | backend/app/ratelimit/limiters.py:64-112 | at most twice the limit is allowed in any half-open interval of one window's length |
| RateLimit.TwiceTheLimitIsReached | backend/app/ratelimit/limiters.py:64-112 | for every limit some history reaches that bound |
| ContextWindow.EstimateTokens | backend/app/services/conversation.py:23-34 | the length over four, rounded up, and at least one |
| ContextWindow.TruncationFits | backend/app/services/context.py:117-124 | an oversized turn is cut to a prefix and the marker, and fits its budget exactly when that is at least 4 |
| ContextWindow.ShortTurnsStayWhole | backend/app/services/context.py:117-124 | a turn is cut only if it is longer than the characters its budget leaves |
| ContextWindow.Build | backend/app/services/context.py:66-114 | a suffix that fits and could not take one turn more, or the newest turn truncated; total exact, kept and dropped add up |
| ContextWindow.LongestSuffix | backend/app/services/context.py:66-114 | a suffix is within the budget exactly when it is no longer than the window |
| ContextWindow.BiggerBudgetKeepsMore | backend/app/services/context.py:66-114 | a larger budget never keeps fewer turns |
| ContextWindow.TextStaysInBudget | backend/app/services/context.py:91-99 | the text of the window, estimated anew, is within the budget exactly when nothing was truncated or the budget is at least 4 |
| ParamSyntax.ParseReference | backend/app/workflows/definition.py:19-24 | what a reference names is always an identifier |
| ParamSyntax.ParsesExactlyTheForm | backend/app/workflows/definition.py:19-24 | reading a reference step by step accepts exactly the strings the pattern describes, with that name |
| ParamSyntax.ReadParam | backend/app/workflows/definition.py:127-133 | only a string that is entirely a reference is one; any other value is itself |
| ParamSyntax.ReadsExactlyTheForm | backend/app/workflows/definition.py:127-133 | a parameter is a reference exactly if it is a string of the pattern, and then to the name in it |
| ParamSyntax.NamesThatMatch | backend/app/workflows/definition.py:17 | the names accepted are the identifiers, and identifiers followed by a newline |
| ParamSyntax.ReferenceRoundTrip | backend/app/workflows/definition.py:122-133 | the reference written for an accepted name is read back as that name exactly when it has no newline |
| Workflows.ReferencesOf | backend/app/workflows/definition.py:54-62 | the steps named by a step's parameters |
| Workflows.Validate | backend/app/workflows/definition.py:83-109 | a workflow is accepted exactly when it is well formed; an error names a fault it has |
| Workflows.ValidateSteps | backend/app/workflows/definition.py:93-109 | the loop accepts exactly when each step's id is new and its references point backwards |
| Workflows.Resolve | backend/app/workflows/execution.py:117-128 | references become outputs, null without one, and literals pass |
| Workflows.RunWorkflow | backend/app/workflows/execution.py:64-115 | the records are a prefix of the steps, called on the outputs before them; the run stops at the first required step that fails and otherwise completes |
| Workflows.OutputNames | backend/app/workflows/execution.py:79-115 | the outputs are the inputs and the successful steps |
| Workflows.OutputOf | backend/app/workflows/execution.py:79-115 | in a valid workflow, on any inputs, a step's name stands for what that step gave, or for what the caller supplied under it if the step failed |
| Workflows.UnresolvedReferences | backend/app/workflows/execution.py:160-171 | exactly the names that some step references before anything provides them |
| Workflows.UnresolvedAreMissingInputs | backend/app/workflows/execution.py:160-171 | for a valid workflow, exactly the declared inputs that are referenced and not supplied |
| Workflows.ReferencesMeanWhatTheyName | backend/app/workflows/execution.py:117-128 | on any inputs, a reference passes the output of the one earlier step of its name; after an optional step that failed, and where no step has the name, the caller's value of that name or null |
| Workflows.LiteralsReachTheTool | backend/app/workflows/execution.py:117-128 | a literal reaches its tool as it was written |
| Workflows.StopsAtFirstFailure | backend/app/workflows/execution.py:79-115 | a step is run and recorded exactly if no required step before it failed |
| Workflows.NothingLackedHasASource | backend/app/workflows/execution.py:160-171 | on inputs that lack nothing every reference names an input or an earlier step |
| Workflows.DeclaredInputsSuffice | backend/app/workflows/definition.py:83-109 | a valid workflow run on exactly its declared inputs lacks nothing, and no input bears a step's name |
| Metrics.LabelsAreTokens | backend/app/observability/spans.py:119-128 | a scalar is rendered, a token of at most 120 characters without whitespace is kept, and everything else reads the same |
| Metrics.SortedIsSorted | backend/app/observability/metrics.py:179 | sorting labels orders them and keeps them |
| Metrics.TextLeIsLexicographic | backend/app/observability/metrics.py:179 | texts are ordered by the first character in which they differ, or by length |
| Metrics.KeyHoldsTheLabels | backend/app/observability/metrics.py:169-179 | a series' key holds each label's name and rendered value as often as the labels do, in order, and nothing else |
| Metrics.SameSeriesExactly | backend/app/observability/metrics.py:169-179 | two lists of labels name the same series exactly if they read as the same pairs |
| Metrics.LabelOrderIsIrrelevant | backend/app/observability/metrics.py:169-179 | the same labels in any order name the same series |
| Metrics.InMemoryMetrics.Key | backend/app/observability/metrics.py:149-166 | a series is accepted if tracked already or if there is room; a refusal marks the metric |
| Metrics.InMemoryMetrics.Increment | backend/app/observability/metrics.py:90-94 | a tracked counter holds the sum of every increment the run ever made to it |
| Metrics.InMemoryMetrics.Observe | backend/app/observability/metrics.py:96-102 | a tracked series holds every duration the run ever gave for it, in order |
| Metrics.InMemoryMetrics.Counter | backend/app/observability/metrics.py:106-107 | reads the exact sum for the first `max_series` series of a metric and zero for any later one |
| Metrics.InMemoryMetrics.Observations | backend/app/observability/metrics.py:113-114 | reads every duration of the first `max_series` series of a metric, in order, and none of any later one |
| Metrics.CountsItsOwnLabels | backend/app/observability/metrics.py:90-107 | an increment adds to the counter of the labels that read alike, and to no other of its metric |
| Metrics.Counted | backend/app/observability/metrics.py:90-94 | one increment keeps every counter complete and only the first series tracked |
| Metrics.Kept | backend/app/observability/metrics.py:96-102 | so does one observation, for durations |
| Metrics.Admission | backend/app/observability/metrics.py:149-166 | accepting or refusing keeps exactly the first series of every metric, and a series newly accepted was never named before |
| Metrics.CapHolds | backend/app/observability/metrics.py:149-166 | at every point of a run no metric has more than `max_series` counters or durations |
| Tracing.Tracer.Enter | backend/app/observability/tracer.py:189-199 | a new span under the current one, in its trace or a new one, becomes current |
| Tracing.OpeningStarts | backend/app/observability/tracer.py:189-199 | the new span is the innermost one: under the one that was, with its identifier as parent and in its trace, or the root of a new trace |
| Tracing.Tracer.Exit | backend/app/observability/tracer.py:200-209 | marks an escaping `Exception`, restores the token and records the span |
| Tracing.Tracer.RunInSpan | backend/app/observability/tracer.py:177-209 | the block of a `with` statement, however it ends |
| Tracing.Tracer.Run | backend/app/observability/tracer.py:177-209 | a whole nested piece of work leaves the current span as it was and records what the flat log of openings and closings says |
| Tracing.Restored | backend/app/observability/tracer.py:198-208 | however work ends and wherever exceptions are caught, the spans open afterwards are those open before, and nothing recorded is lost |
| Tracing.SpanIsRecorded | backend/app/observability/tracer.py:200-209 | a span is recorded right after what happened inside it, with the error of an escaping `Exception`, and with none when nothing escaped and nothing was marked |
| Tracing.EveryRun | backend/app/observability/tracer.py:177-209 | after any log the spans form a forest: identifiers distinct, parents after children in the same trace, roots in different traces |
| Tracing.EachSpanOnce | backend/app/observability/tracer.py:189-209 | the spans recorded or open are exactly those opened, each under the span that was innermost then and in its trace, with the error of the last event aimed at it while it was open |
| Tracing.StartsAreApart | backend/app/observability/tracer.py:189-209 | no two openings share a span |
| Tracing.RaisingSkips | backend/app/observability/tracer.py:198-209 | nothing runs after a raise until it is caught |
| Tracing.CleanupAlwaysRuns | backend/app/observability/tracer.py:198-209 | a `finally` is a cleanup after the body and in a handler that raises again |
| Tracing.HandlersCatch | backend/app/observability/tracer.py:198-209 | a handler runs exactly for what it catches |
| Tracing.TracesAreTrees | backend/app/observability/tracer.py:189-197 | two spans share a trace exactly when they share a root |
| Tracing.DescendantsComeFirst | backend/app/observability/tracer.py:206-209 | every descendant is recorded before its ancestor |
| Tracing.TaskRecordsItsTree | backend/app/observability/tracer.py:177-216 | a task that starts with no open span ends with none, its record a forest holding each span it opened once |
| Cost.NearestMicrodollar | backend/app/observability/cost.py:191-194 | the quantized amount is the closest whole number of microdollars, the larger one at a tie |
| Cost.CostOf | backend/app/observability/cost.py:191-194 | a rounded cost is not negative and within half a microdollar of the exact one |
| Cost.PricingTable | backend/app/observability/cost.py:92-100 | a table is built exactly from entries without a repeated model; otherwise a repeated one is named |
| Cost.OneCallWithinOne | backend/app/observability/cost.py:145-188 | a priced call is within one microdollar of its exact cost, an unpriced one costs nothing |
| Cost.EstimateShowsTheCall | backend/app/observability/cost.py:145-188 | an estimate shows the tokens reported, zero for both being unreported, and is priced exactly if its model is, each kind of token at its own price |
| Cost.LedgerWithinOneEach | backend/app/observability/cost.py:197-234 | a ledger is within one microdollar a priced call of the exact sum |
| Cost.OrderIsIrrelevant | backend/app/observability/cost.py:232-234 | the total is the same for every order of the calls |
| Cost.ByModelAddsUp | backend/app/observability/cost.py:232-249 | the totals by model add up to the total |
| Cost.UsageLedger.TotalCost | backend/app/observability/cost.py:232-234 | the sum of the entries' rounded costs |
| Cost.UsageLedger.ByModel | backend/app/observability/cost.py:245-249 | exactly the models that occur, each with the sum of its entries |
| Cost.UsageLedger.FullyPriced | backend/app/observability/cost.py:236-243 | whether the priced calls are all the calls |
| Policy.PolicyEngine.Add | backend/app/policy/rules.py:107-112 | a rule is added at the end exactly when it has a name of its own |
| Policy.PolicyEngine.Evaluate | backend/app/policy/rules.py:118-130 | the verdict of the first rule that does not allow, with the rules consulted up to it |
| Policy.FirstDecisionCounts | backend/app/policy/rules.py:118-130 | the verdict is that of the rule that decides while none before it does, or the default; the names listed are those consulted |
| Policy.FirstDecisionIsRead | backend/app/policy/enforcement.py:88-129 | what the customer reads after it: the rule's text, or the fixed refusal for a block or an empty replacement |
| Policy.NoDecisionIsVerbatim | backend/app/policy/enforcement.py:88-129 | without a decision the reply is left as it was proposed |
| Policy.LaterRulesCannotOverrule | backend/app/policy/rules.py:118-130 | a decision depends on no rule after the one that made it |
| Policy.ModifiedExactly | backend/app/policy/enforcement.py:88-129 | whatever the rules, a reply is reported as modified exactly when its text changed or it was blocked, a blocked one is never resolved, and only a rule that decides can do either |
| Policy.DefaultRulesDecide | backend/app/policy/library.py:36-109 | the default rules let a reply through exactly when it commits to nothing, answers no complaint and is resolved, and otherwise send the review reply under the first rule that objects |
| Routing.DecideIsExact | backend/app/routing/router.py:98-120 | which handler runs, and the reason, for every classification |
| Routing.RoutedIsTheResponse | backend/app/routing/router.py:122-180 | without rules, or when none decides, the response goes out as it is, naming the handler that answered |
| Routing.RoutedIsTheDecision | backend/app/routing/router.py:122-180 | the deciding rule's text goes out under its name; sources are dropped exactly if the reply was changed or blocked |
| Routing.CitedIsVerbatim | backend/app/routing/router.py:122-180 | a routed reply with sources is word for word the handler's |
| Escalation.Reasons | backend/app/escalation/criteria.py:69-88 | each reason is given exactly when its condition holds |
| Escalation.ReasonsAreRanked | backend/app/escalation/criteria.py:69-88 | reasons stand once each, the most pressing first |
| Escalation.Evaluate | backend/app/escalation/criteria.py:69-88 | the reasons, collected in order |
| Escalation.NoticeOnce | backend/app/escalation/handoff.py:106-110 | a customer is told of the agent, and adding the notice again changes nothing |
| Escalation.NoticeKeepsReply | backend/app/escalation/handoff.py:106-110 | the notice follows the whole reply, less trailing whitespace, exactly if the agent is not mentioned in it |
| Escalation.ConsideredExactly | backend/app/escalation/handoff.py:54-103 | when a person is asked, under which reason first, what the customer then reads, and whether the item is queued |
| Escalation.HandoffService.Consider | backend/app/escalation/handoff.py:54-103 | escalates exactly with a reason, queues the item under the first one, and sends the reply even when the queue fails |
| Assistant.CitedTextIsTheHandlers | backend/app/services/assistant.py:98-145 | with any rules and any floors, a reply with sources is the handler's text, perhaps with the notice |
| Assistant.EscalatedExactly | backend/app/services/assistant.py:98-145 | a reply is not escalated exactly when its category is neither complaint nor other, its confidence reaches the floor, its handler resolved it, and it commits to nothing or is the review reply itself |
| Assistant.UnescalatedIsVerbatim | backend/app/services/assistant.py:98-145 | such a reply is the registered handler's text and sources, matched and handled |
| Assistant.EscalatedIsReviewReply | backend/app/services/assistant.py:98-145 | every escalated reply is the review reply |
| Assistant.FallbackReachesAHuman | backend/app/routing/router.py:98-130 | a message falls back exactly when uncategorised or below the floor, and then is escalated with the review reply and no sources |
| Assistant.RecordIsTrue | backend/app/services/assistant.py:83-147 | the record keeps what was there, then the customer's words and what the customer read; sources on record are the handler's, of its own text |
| Assistant.AssistantService.Respond | backend/app/services/assistant.py:83-147 | the question is recorded before anything else can fail, the reply and its sources as sent; each failure, that of recording the answer included, leaves the turns and the queue as stated |

## Left out

* Redis and network errors, except as "the worker stops here and the command did or did not
  happen"; the rate limiter's behaviour when Redis fails, and its local clock.
* Reclaiming identifiers stranded in the processing list, which the source does not do either.
* Handlers that enqueue jobs during a drain; in `RedisInterleaving` jobs may be enqueued at any time.
* Job payloads are their JSON text: writing and reading one back is taken to be the identity.
* Random identifiers are taken never to repeat: jobs', spans' and turns' alike.
* Wall-clock timeouts inside handlers and tools are one more way to fail; cancellation of a task is a crash.
* The protocol of `Realtime` is that of grounded answers: prose that ends twice has no single answer to match.
* Pings, oversized and unparsable frames, tickets, connection limits, reconnection delays.
* In `Realtime` every question is submitted from the latest render; what an older one does is in `Page.SendKeepsUiExactly`.
* Stored conversation identifiers, loading of history and reconnection; `Send` trims what Python calls whitespace, which JavaScript's `trim` nearly shares.
* No bound is claimed for requests that Redis counts after the window they read; `CountIsExact` says what they are answered.
* The limiter's key strings; a key and a window number stand for one.
* Clock readings, confidences, durations and money are exact reals: no float rounding and no 28-digit decimal context.
* Workflows.Validate: of several faults it may name another than pydantic, which reports them all.
* `tools_used`, run summaries and durations of workflows; tools are oracles that return any result.
* Metrics.InMemoryMetrics.Counter: `total`, `snapshot` and `clear` are not modelled, and a run is one without `clear`.
* Span attributes, kinds, durations, and recorders that raise or discard; one task at a time.
* Parsing price entries from text, and the order of keys in `by_model`.
* The regular expressions for commitments are an arbitrary predicate on replies.
* The handlers of the pipeline, retrieval and the model are oracles that return any response or raise.
* Routes, schemas, settings, logging, authentication, rendering, storage and everything else that has no invariant of its own.
