// What a run of queue calls says about each job, told from the calls alone: who enqueued it,
// how often it was handed out since, how its last attempt ended. The queue
// (backend/app/jobs/memory.py) is proved to store, answer and hand out exactly that.
module JobHistory {
  import opened Wrappers
  import opened Jobs
  import opened MemoryQueue

  // One call and what it answered.
  datatype Exchange = Exchange(call: Call, answer: Answer)

  type Log = seq<Exchange>

  ghost function Exchanges(calls: seq<Call>, answers: seq<Answer>): (log: Log)
    requires |calls| == |answers|
    ensures |log| == |calls|
  {
    seq(|calls|, i requires 0 <= i < |calls| => Exchange(calls[i], answers[i]))
  }

  // The exchange was about this job, and not just a look at it.
  predicate About(e: Exchange, id: string) {
    e.answer.Stored? && e.answer.job.id == id && !e.call.Get?
  }

  // -- one job's story ------------------------------------------------------

  // The enqueue that created the job.
  ghost function Origin(log: Log, id: string): (origin: Option<Call>)
    ensures origin.Some? ==> origin.value.Enqueue?
  {
    if log == [] then None
    else
      var last := log[|log| - 1];
      if About(last, id) && last.call.Enqueue? then Some(last.call) else Origin(log[..|log| - 1], id)
  }

  // How often it was handed out since.
  ghost function HandedOut(log: Log, id: string): nat {
    if log == [] then 0
    else
      var before, last := HandedOut(log[..|log| - 1], id), log[|log| - 1];
      if !About(last, id) then before
      else if last.call.Enqueue? then 0
      else if last.call.Dequeue? then before + 1
      else before
  }

  // What its last failure said, unless it was completed since.
  ghost function LastFailure(log: Log, id: string): Option<string> {
    if log == [] then None
    else
      var before, last := LastFailure(log[..|log| - 1], id), log[|log| - 1];
      if !About(last, id) then before
      else
        match last.call
        case Fail(_, error, _) => Some(error)
        case Dequeue => before
        case _ => None
  }

  // An exchange that gives up on the job: it may not be retried, or has no attempt left.
  ghost predicate GivesUp(before: Log, e: Exchange, id: string) {
    && About(e, id) && e.call.Fail?
    && (!e.call.retryable
        || (Origin(before, id).Some? && HandedOut(before, id) >= Origin(before, id).value.maxAttempts))
  }

  ghost function StatusOf(log: Log, id: string): Status {
    if log == [] then Pending
    else
      var before, last := log[..|log| - 1], log[|log| - 1];
      if !About(last, id) then StatusOf(before, id)
      else
        match last.call
        case Dequeue => Running
        case Complete(_) => Succeeded
        case Fail(_, _, _) => if GivesUp(before, last, id) then Failed else Pending
        case _ => Pending
  }

  // The identifiers given up on, in that order.
  ghost function GivenUp(log: Log): seq<string> {
    if log == [] then []
    else
      var before, last := log[..|log| - 1], log[|log| - 1];
      GivenUp(before) +
      if last.answer.Stored? && GivesUp(before, last, last.answer.job.id) then [last.answer.job.id] else []
  }

  // The record is the one the log tells of.
  ghost predicate Told(log: Log, id: string, job: Job) {
    && Origin(log, id).Some?
    && var origin := Origin(log, id).value;
       && job.id == id == origin.id && job.name == origin.name && origin.payload == Json(job.payload)
       && job.maxAttempts == origin.maxAttempts
       && job.attempts == HandedOut(log, id)
       && job.error == LastFailure(log, id)
       && job.status == StatusOf(log, id)
  }

  ghost predicate Tells(log: Log, q: Queue) {
    && q.Valid()
    && (forall id :: id in q.jobs ==> Told(log, id, q.jobs[id]))
    && (forall id :: id !in q.jobs ==> Origin(log, id).None?)
    && q.dead == GivenUp(log)
  }

  // What an answer says is what the log tells, this exchange included.
  ghost predicate Answered(before: Log, e: Exchange, q: Queue) {
    var log := before + [e];
    match e.call
    case Enqueue(id, name, payload, maxAttempts) =>
      if BuildJob(id, name, payload, maxAttempts).Success? then e.answer.Stored? && Told(log, id, e.answer.job)
      else e.answer.Raised?
    case Dequeue =>
      if q.pending == [] then e.answer == Nothing
      else e.answer.Stored? && e.answer.job.id == q.pending[0] && Told(log, q.pending[0], e.answer.job)
    case Complete(id) => AnsweredAbout(before, log, id, e.answer)
    case Fail(id, _, _) => AnsweredAbout(before, log, id, e.answer)
    case Get(id) => AnsweredAbout(before, log, id, e.answer)
    case Depth => e.answer == Count(|q.pending|)
    case DeadLettered =>
      && e.answer.Listed? && |e.answer.jobs| == |GivenUp(before)|
      && forall i :: 0 <= i < |GivenUp(before)| ==> Told(before, GivenUp(before)[i], e.answer.jobs[i])
  }

  ghost predicate AnsweredAbout(before: Log, log: Log, id: string, answer: Answer) {
    if Origin(before, id).None? then answer == Raised(NotFound) else answer.Stored? && Told(log, id, answer.job)
  }

  lemma LogGrows(log: Log, e: Exchange)
    ensures (log + [e])[..|log + [e]| - 1] == log && (log + [e])[|log + [e]| - 1] == e
  {
  }

  // An exchange changes the story of the job it is about, and of no other.
  lemma OthersAsBefore(log: Log, e: Exchange, id: string)
    requires !About(e, id)
    ensures Origin(log + [e], id) == Origin(log, id)
    ensures forall job :: Told(log + [e], id, job) <==> Told(log, id, job)
  {
    LogGrows(log, e);
  }

  lemma StepIsTold(log: Log, q: Queue, call: Call)
    requires Tells(log, q)
    ensures var (after, answer) := Step(q, call);
            Tells(log + [Exchange(call, answer)], after) && Answered(log, Exchange(call, answer), q)
  {
    var (after, answer) := Step(q, call);
    var e := Exchange(call, answer);
    LogGrows(log, e);
    StepKeepsValid(q, call);
    forall id
      ensures id in after.jobs ==> Told(log + [e], id, after.jobs[id])
      ensures id !in after.jobs ==> Origin(log + [e], id).None?
    {
      if !About(e, id) {
        OthersAsBefore(log, e, id);
      }
    }
  }

  // Appending a whole run, call by call.
  lemma {:induction false} RunIsTold(log: Log, q: Queue, calls: seq<Call>)
    requires Tells(log, q)
    ensures var (last, answers) := Run(q, calls);
            |answers| == |calls| && Tells(log + Exchanges(calls, answers), last)
    decreases |calls|
  {
    var (last, answers) := Run(q, calls);
    if calls == [] {
      assert log + Exchanges(calls, answers) == log;
    } else {
      var (next, answer) := Step(q, calls[0]);
      StepIsTold(log, q, calls[0]);
      StepKeepsValid(q, calls[0]);
      RunIsTold(log + [Exchange(calls[0], answer)], next, calls[1..]);
      assert log + Exchanges(calls, answers) ==
             (log + [Exchange(calls[0], answer)]) + Exchanges(calls[1..], answers[1..]);
    }
  }

  // After any run of calls on a new queue, the log of the run tells every stored record, field
  // by field, and every answer of one call more: whatever is enqueued, handed out, completed or
  // failed meanwhile, a worker is handed the name and the payload that were enqueued.
  lemma RecordsTellTheRun(calls: seq<Call>, call: Call)
    ensures var (q, answers) := Run(EMPTY, calls);
            && |answers| == |calls| && q.Valid()
            && var log := Exchanges(calls, answers);
               && Tells(log, q)
               && Answered(log, Exchange(call, Step(q, call).1), q)
  {
    var (q, answers) := Run(EMPTY, calls);
    RunIsTold([], EMPTY, calls);
    var log := Exchanges(calls, answers);
    assert [] + log == log;
    StepIsTold(log, q, call);
  }

  // A refused call changes nothing.
  lemma RefusalChangesNothing(q: Queue, call: Call)
    requires q.Valid() && Step(q, call).1.Raised?
    ensures Step(q, call).0 == q
  {
  }
}
