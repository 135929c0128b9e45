// The job worker (backend/app/jobs/worker.py) over the in-memory queue, with
// handlers that enqueue nothing.
module Worker {
  import opened Wrappers
  import opened Jobs
  import opened MemoryQueue

  // What one dispatch meets: nothing is known about handlers, so this is arbitrary.
  datatype Verdict =
    | NoHandler
    | BadPayload(detail: string)
    | Completed
    | TimedOut
    | Refused(message: string, retryable: bool)
    | Crashed
  {
    predicate Retryable() {
      match this
      case NoHandler => false
      case BadPayload(_) => false
      case Refused(_, retryable) => retryable
      case _ => true
    }
  }

  datatype Outcome = Succeeded | Retrying | DeadLettered

  datatype JobRun = JobRun(jobId: string, name: string, outcome: Outcome, attempts: nat, error: Option<string>)

  const UNEXPECTED_ERROR := "The job failed unexpectedly."

  function Reason(job: Job, verdict: Verdict, timeout: string): string {
    match verdict
    case NoHandler => "No handler is registered for '" + job.name + "'."
    case BadPayload(detail) => "Invalid payload — " + detail
    case TimedOut => "The job did not finish within " + timeout + "s."
    case Refused(message, _) => message
    case _ => UNEXPECTED_ERROR
  }

  // -- the queue between two runs -----------------------------------------

  // The waiting jobs are distinct, pending, and have attempts left.
  ghost predicate Waiting(q: Queue) {
    && q.Valid()
    && (forall i, j :: 0 <= i < j < |q.pending| ==> q.pending[i] != q.pending[j])
    && (forall i :: 0 <= i < |q.pending| ==> Ready(q.jobs, q.pending[i]))
  }

  ghost predicate Ready(jobs: map<string, Job>, id: string) {
    id in jobs && jobs[id].status == Pending && jobs[id].attempts < jobs[id].maxAttempts
  }

  ghost predicate Stored(jobs: map<string, Job>, ids: seq<string>) {
    forall i :: 0 <= i < |ids| ==> ids[i] in jobs
  }

  lemma EmptyWaits()
    ensures Waiting(EMPTY)
  {
  }

  // So is every queue that was only enqueued to and drained: a new job joins it.
  lemma EnqueuedWaits(q: Queue, id: string, name: string, payload: Payload, maxAttempts: int)
    requires Waiting(q) && id !in q.jobs
    ensures Waiting(Step(q, Call.Enqueue(id, name, payload, maxAttempts)).0)
  {
    forall i | 0 <= i < |q.pending|
      ensures q.pending[i] != id
    {
      assert Ready(q.jobs, q.pending[i]);
    }
  }

  // The attempts that the waiting jobs can still spend.
  ghost function Budget(jobs: map<string, Job>, ids: seq<string>): int
    requires Stored(jobs, ids)
  {
    if ids == [] then 0
    else jobs[ids[0]].maxAttempts - jobs[ids[0]].attempts + Budget(jobs, ids[1..])
  }

  ghost function QueueBudget(q: Queue): int
    requires q.Valid()
  {
    Budget(q.jobs, q.pending)
  }

  lemma {:induction false} BudgetSnoc(jobs: map<string, Job>, ids: seq<string>, id: string)
    requires Stored(jobs, ids) && id in jobs
    ensures Stored(jobs, ids + [id])
    ensures Budget(jobs, ids + [id]) == Budget(jobs, ids) + jobs[id].maxAttempts - jobs[id].attempts
  {
    if ids == [] {
      assert Budget(jobs, []) == 0;
    } else {
      assert (ids + [id])[1..] == ids[1..] + [id];
      BudgetSnoc(jobs, ids[1..], id);
    }
  }

  lemma {:induction false} BudgetFrame(jobs: map<string, Job>, ids: seq<string>, id: string, job: Job)
    requires Stored(jobs, ids) && id !in ids
    ensures Stored(jobs[id := job], ids)
    ensures Budget(jobs[id := job], ids) == Budget(jobs, ids)
  {
    if ids != [] {
      BudgetFrame(jobs, ids[1..], id, job);
    }
  }

  // -- one run ------------------------------------------------------------

  function OutcomeOf(job: Job, verdict: Verdict): Outcome {
    if verdict.Completed? then Outcome.Succeeded
    else if !verdict.Retryable() || job.attempts >= job.maxAttempts then Outcome.DeadLettered
    else Retrying
  }

  function StatusAfter(outcome: Outcome): Status {
    match outcome
    case Succeeded => Jobs.Succeeded
    case Retrying => Pending
    case DeadLettered => Failed
  }

  // What `run_once` amounts to: one attempt of the first waiting job, recorded.
  function OneRun(q: Queue, verdict: Verdict, timeout: string): (Queue, Option<JobRun>)
    requires q.Valid()
  {
    if q.pending == [] then
      (q, None)
    else
      var id := q.pending[0];
      var job := q.jobs[id].Started();
      var error := if verdict.Completed? then None else Some(Reason(job, verdict, timeout));
      var outcome := OutcomeOf(job, verdict);
      (Queue(
         if outcome == Retrying then q.pending[1..] + [id] else q.pending[1..],
         q.jobs[id := job.(status := StatusAfter(outcome), error := error)],
         if outcome == Outcome.DeadLettered then q.dead + [id] else q.dead),
       Some(JobRun(id, job.name, outcome, job.attempts, error)))
  }

  // The part of it that attempts and budgets depend on.
  ghost predicate Ran(q: Queue, verdict: Verdict, after: Queue, run: JobRun)
    requires q.pending != []
  {
    var id := q.pending[0];
    && run.jobId == id && id in q.jobs && id in after.jobs
    && after.jobs == q.jobs[id := after.jobs[id]]
    && run.attempts == after.jobs[id].attempts == q.jobs[id].attempts + 1
    && after.jobs[id].maxAttempts == q.jobs[id].maxAttempts
    && after.pending == (if run.outcome == Retrying then q.pending[1..] + [id] else q.pending[1..])
    && run.outcome == OutcomeOf(after.jobs[id], verdict)
    && after.jobs[id].status == StatusAfter(run.outcome)
  }

  // The rest of it: what is noted of the run, in its record and in the job's.
  ghost predicate Noted(q: Queue, verdict: Verdict, after: Queue, run: JobRun) {
    && run.jobId in q.jobs && run.name == q.jobs[run.jobId].name
    && after.jobs == q.jobs[run.jobId := Recorded(q.jobs[run.jobId], run)]
    && run.attempts == q.jobs[run.jobId].attempts + 1
    && Explained(run, verdict)
  }

  // The record of a job after its last run: only the status, the attempts and the error differ.
  ghost function Recorded(job: Job, run: JobRun): Job {
    Job(job.id, job.name, job.payload,
        match run.outcome { case Succeeded => Jobs.Succeeded case Retrying => Pending case DeadLettered => Failed },
        run.attempts, job.maxAttempts, run.error)
  }

  ghost predicate Within(part: string, whole: string) {
    exists i :: 0 <= i <= |whole| - |part| && StandsAt(part, whole, i)
  }

  predicate StandsAt(part: string, whole: string, i: nat)
    requires i + |part| <= |whole|
  {
    whole[i..i + |part|] == part
  }

  // A failed run has an error, which says what is known: the job nobody handles, the faults of
  // the payload, the handler's own words; of an unexpected exception, nothing.
  ghost predicate Explained(run: JobRun, verdict: Verdict) {
    match verdict
    case Completed => run.error == None
    case Refused(message, _) => run.error == Some(message)
    case Crashed => run.error == Some(UNEXPECTED_ERROR)
    case NoHandler => run.error.Some? && Within(run.name, run.error.value)
    case BadPayload(detail) => run.error.Some? && Within(detail, run.error.value)
    case TimedOut => run.error.Some?
  }

  // Failures that no retry can fix.
  predicate Hopeless(verdict: Verdict) {
    verdict.NoHandler? || verdict.BadPayload? || (verdict.Refused? && !verdict.retryable)
  }

  // What a run met decides how it ended.
  ghost predicate Decided(run: JobRun, verdict: Verdict, maxAttempts: int) {
    && (run.outcome == Outcome.Succeeded <==> verdict.Completed?)
    && (run.outcome == Outcome.DeadLettered <==>
          !verdict.Completed? && (Hopeless(verdict) || run.attempts == maxAttempts))
    && Explained(run, verdict)
  }

  // Of a handler that ran out of time, how long it had.
  lemma TimeoutIsNamed(job: Job, timeout: string)
    ensures Within(timeout, Reason(job, TimedOut, timeout))
  {
    assert StandsAt(timeout, Reason(job, TimedOut, timeout), |"The job did not finish within "|);
  }

  lemma ReasonIsExplained(job: Job, verdict: Verdict, timeout: string, run: JobRun)
    requires run.name == job.name
    requires run.error == if verdict.Completed? then None else Some(Reason(job, verdict, timeout))
    ensures Explained(run, verdict)
  {
    match verdict
    case NoHandler =>
      var before := "No handler is registered for '";
      assert StandsAt(job.name, Reason(job, verdict, timeout), |before|);
    case BadPayload(detail) =>
      var before := "Invalid payload — ";
      assert StandsAt(detail, Reason(job, verdict, timeout), |before|);
    case _ =>
  }

  lemma RunOnceRan(q: Queue, verdict: Verdict, timeout: string)
    requires q.Valid()
    ensures var (after, run) := OneRun(q, verdict, timeout);
            && after.Valid()
            && (q.pending != [] ==> run.Some? && Ran(q, verdict, after, run.value))
  {
  }

  lemma RunOnceNoted(q: Queue, verdict: Verdict, timeout: string)
    requires q.Valid() && q.pending != []
    ensures var (after, run) := OneRun(q, verdict, timeout);
            run.Some? && Noted(q, verdict, after, run.value)
  {
    var (after, run) := OneRun(q, verdict, timeout);
    ReasonIsExplained(q.jobs[q.pending[0]].Started(), verdict, timeout, run.value);
  }

  // Each run spends at least one attempt of the budget.
  lemma RunSpends(q: Queue, verdict: Verdict, after: Queue, run: JobRun)
    requires Waiting(q) && q.pending != [] && Ran(q, verdict, after, run) && after.Valid()
    ensures Waiting(after) && QueueBudget(after) < QueueBudget(q)
  {
    var id, rest := q.pending[0], q.pending[1..];
    assert q.pending == [id] + rest;
    forall i | 0 <= i < |rest|
      ensures rest[i] != id && Ready(after.jobs, rest[i])
    {
      assert rest[i] == q.pending[i + 1];
      assert Ready(q.jobs, q.pending[i + 1]);
    }
    assert Ready(q.jobs, q.pending[0]);
    BudgetFrame(q.jobs, rest, id, after.jobs[id]);
    if run.outcome == Retrying {
      BudgetSnoc(after.jobs, rest, id);
    }
  }

  // -- draining -----------------------------------------------------------

  // `drain` with a budget of |verdicts| runs, the i-th of which meets verdicts[i].
  function Drained(q: Queue, verdicts: seq<Verdict>, timeout: string): (Queue, seq<JobRun>)
    requires q.Valid()
    decreases |verdicts|
  {
    if verdicts == [] then
      (q, [])
    else
      var (after, run) := OneRun(q, verdicts[0], timeout);
      if run.None? then
        (after, [])
      else
        RunOnceRan(q, verdicts[0], timeout);
        var (last, runs) := Drained(after, verdicts[1..], timeout);
        (last, [run.value] + runs)
  }

  // The first of the runs of a drain that has work to do.
  lemma FirstRun(q: Queue, verdicts: seq<Verdict>, timeout: string) returns (after: Queue, run: JobRun)
    requires Waiting(q) && q.pending != [] && verdicts != []
    ensures Ran(q, verdicts[0], after, run)
    ensures Waiting(after) && QueueBudget(after) < QueueBudget(q)
    ensures var rest := Drained(after, verdicts[1..], timeout);
            Drained(q, verdicts, timeout) == (rest.0, [run] + rest.1)
  {
    RunOnceRan(q, verdicts[0], timeout);
    after, run := OneRun(q, verdicts[0], timeout).0, OneRun(q, verdicts[0], timeout).1.value;
    RunSpends(q, verdicts[0], after, run);
  }

  lemma NothingToRun(q: Queue, verdicts: seq<Verdict>, timeout: string)
    requires q.Valid() && (q.pending == [] || verdicts == [])
    ensures Drained(q, verdicts, timeout) == (q, [])
  {
  }

  function RunsOf(runs: seq<JobRun>, id: string): nat {
    if runs == [] then 0 else (if runs[0].jobId == id then 1 else 0) + RunsOf(runs[1..], id)
  }

  // A limit of at least the budget empties the queue, whatever the handlers do.
  lemma {:induction false} DrainEmpties(q: Queue, verdicts: seq<Verdict>, timeout: string)
    requires Waiting(q) && |verdicts| >= QueueBudget(q)
    ensures Drained(q, verdicts, timeout).0.pending == []
    decreases |verdicts|
  {
    if q.pending == [] {
      NothingToRun(q, verdicts, timeout);
    } else {
      BudgetPositive(q.jobs, q.pending);
      var after, run := FirstRun(q, verdicts, timeout);
      DrainEmpties(after, verdicts[1..], timeout);
    }
  }

  lemma {:induction false} BudgetPositive(jobs: map<string, Job>, ids: seq<string>)
    requires forall i :: 0 <= i < |ids| ==> Ready(jobs, ids[i])
    ensures Stored(jobs, ids) && Budget(jobs, ids) >= |ids|
  {
    if ids != [] {
      assert Ready(jobs, ids[0]);
      BudgetPositive(jobs, ids[1..]);
    }
  }

  ghost predicate Spent(q: Queue, last: Queue, runs: seq<JobRun>, id: string) {
    && id in q.jobs && id in last.jobs
    && last.jobs[id].attempts == q.jobs[id].attempts + RunsOf(runs, id)
    && last.jobs[id].maxAttempts == q.jobs[id].maxAttempts
    && (RunsOf(runs, id) > 0 ==> last.jobs[id].attempts <= last.jobs[id].maxAttempts)
  }

  // No job runs past its budget: each run is one attempt, and attempts stop at the maximum.
  lemma {:induction false} DrainCountsAttempts(q: Queue, verdicts: seq<Verdict>, timeout: string, id: string)
    requires Waiting(q) && id in q.jobs
    ensures var (last, runs) := Drained(q, verdicts, timeout);
            Waiting(last) && Spent(q, last, runs, id)
    decreases |verdicts|
  {
    if verdicts == [] || q.pending == [] {
      NothingToRun(q, verdicts, timeout);
    } else {
      var after, run := FirstRun(q, verdicts, timeout);
      DrainCountsAttempts(after, verdicts[1..], timeout, id);
      var runs := Drained(after, verdicts[1..], timeout).1;
      assert ([run] + runs)[1..] == runs;
      assert Ready(q.jobs, q.pending[0]);
    }
  }

  // Why a job that was waiting no longer is: it succeeded, or it was buried by
  // the run that met a failure no retry can fix or that spent its last attempt.
  ghost predicate Settled(last: Queue, runs: seq<JobRun>, verdicts: seq<Verdict>, id: string) {
    id in last.jobs
    && (last.jobs[id].status == Jobs.Succeeded
        || (last.jobs[id].status == Failed
            && exists i :: 0 <= i < |runs| && i < |verdicts| && Buried(last, runs[i], verdicts[i], id)))
  }

  ghost predicate Buried(last: Queue, run: JobRun, verdict: Verdict, id: string)
    requires id in last.jobs
  {
    run.jobId == id && run.outcome == Outcome.DeadLettered && (last.jobs[id].Exhausted() || !verdict.Retryable())
  }

  lemma {:induction false} DrainSettles(q: Queue, verdicts: seq<Verdict>, timeout: string, id: string)
    requires Waiting(q) && id in q.pending
    ensures var (last, runs) := Drained(q, verdicts, timeout);
            id in last.pending || Settled(last, runs, verdicts, id)
    decreases |verdicts|
  {
    if verdicts == [] {
      NothingToRun(q, verdicts, timeout);
    } else {
      var after, run := FirstRun(q, verdicts, timeout);
      var (last, runs) := Drained(after, verdicts[1..], timeout);
      if id in after.pending {
        DrainSettles(after, verdicts[1..], timeout, id);
        if id !in last.pending {
          SettledLater(last, run, runs, verdicts, id);
        }
      } else {
        assert q.pending == [q.pending[0]] + q.pending[1..];
        SettledStays(after, verdicts[1..], timeout, id);
        SettledNow(q, after, last, run, runs, verdicts);
      }
    }
  }

  lemma SettledNow(q: Queue, after: Queue, last: Queue, run: JobRun, runs: seq<JobRun>, verdicts: seq<Verdict>)
    requires q.pending != [] && verdicts != []
    requires Ran(q, verdicts[0], after, run) && run.outcome != Retrying
    requires q.pending[0] in last.jobs && last.jobs[q.pending[0]] == after.jobs[q.pending[0]]
    ensures Settled(last, [run] + runs, verdicts, q.pending[0])
  {
    if run.outcome == Outcome.DeadLettered {
      assert Buried(last, ([run] + runs)[0], verdicts[0], q.pending[0]);
    }
  }

  lemma SettledLater(last: Queue, run: JobRun, runs: seq<JobRun>, verdicts: seq<Verdict>, id: string)
    requires verdicts != [] && Settled(last, runs, verdicts[1..], id)
    ensures Settled(last, [run] + runs, verdicts, id)
  {
    if last.jobs[id].status == Failed {
      var i :| 0 <= i < |runs| && i < |verdicts| - 1 && Buried(last, runs[i], verdicts[1..][i], id);
      assert Buried(last, ([run] + runs)[i + 1], verdicts[i + 1], id);
    }
  }

  lemma {:induction false} SettledStays(q: Queue, verdicts: seq<Verdict>, timeout: string, id: string)
    requires Waiting(q) && id in q.jobs && id !in q.pending
    ensures var last := Drained(q, verdicts, timeout).0;
            id in last.jobs && last.jobs[id] == q.jobs[id] && id !in last.pending
    decreases |verdicts|
  {
    if verdicts == [] || q.pending == [] {
      NothingToRun(q, verdicts, timeout);
    } else {
      var after, run := FirstRun(q, verdicts, timeout);
      assert q.pending == [q.pending[0]] + q.pending[1..];
      SettledStays(after, verdicts[1..], timeout, id);
    }
  }

  // A drain with enough budget: everything that waited has succeeded, or failed
  // for one of the two reasons a job is allowed to fail.
  lemma DrainSettlesEverything(q: Queue, verdicts: seq<Verdict>, timeout: string, id: string)
    requires Waiting(q) && |verdicts| >= QueueBudget(q) && id in q.pending
    ensures var (last, runs) := Drained(q, verdicts, timeout);
            last.pending == [] && Settled(last, runs, verdicts, id)
  {
    DrainEmpties(q, verdicts, timeout);
    DrainSettles(q, verdicts, timeout, id);
  }

  // What a job's record says after its last run, and as it was if there was none.
  ghost function Noting(job: Job, runs: seq<JobRun>): Job
    decreases |runs|
  {
    if runs == [] then job
    else Noting(if runs[0].jobId == job.id then Recorded(job, runs[0]) else job, runs[1..])
  }

  lemma FirstNoted(q: Queue, verdicts: seq<Verdict>, timeout: string) returns (after: Queue, run: JobRun)
    requires Waiting(q) && q.pending != [] && verdicts != []
    ensures Waiting(after) && Ran(q, verdicts[0], after, run) && Noted(q, verdicts[0], after, run)
    ensures Drained(q, verdicts, timeout).0 == Drained(after, verdicts[1..], timeout).0
    ensures Drained(q, verdicts, timeout).1 == [run] + Drained(after, verdicts[1..], timeout).1
  {
    RunOnceRan(q, verdicts[0], timeout);
    RunOnceNoted(q, verdicts[0], timeout);
    after, run := OneRun(q, verdicts[0], timeout).0, OneRun(q, verdicts[0], timeout).1.value;
    RunSpends(q, verdicts[0], after, run);
  }

  // A drain leaves every job as its runs noted it, the last one's error and status among them;
  // its name, its payload and its limit stay what they were.
  lemma {:induction false} DrainNotes(q: Queue, verdicts: seq<Verdict>, timeout: string, id: string)
    requires Waiting(q) && id in q.jobs
    ensures var (last, runs) := Drained(q, verdicts, timeout);
            id in last.jobs && last.jobs[id] == Noting(q.jobs[id], runs)
    decreases |verdicts|
  {
    if verdicts == [] || q.pending == [] {
      NothingToRun(q, verdicts, timeout);
    } else {
      var after, run := FirstNoted(q, verdicts, timeout);
      DrainNotes(after, verdicts[1..], timeout, id);
      var rest := Drained(after, verdicts[1..], timeout).1;
      assert ([run] + rest)[1..] == rest;
    }
  }

  lemma {:induction false} NotingKeeps(job: Job, runs: seq<JobRun>)
    ensures var noted := Noting(job, runs);
            noted.id == job.id && noted.name == job.name && noted.payload == job.payload
            && noted.maxAttempts == job.maxAttempts
    decreases |runs|
  {
    if runs != [] {
      NotingKeeps(if runs[0].jobId == job.id then Recorded(job, runs[0]) else job, runs[1..]);
    }
  }

  // Which attempt of which job a run was, and how what it met decided it.
  ghost predicate RunOf(jobs: map<string, Job>, run: JobRun, verdict: Verdict, attempt: int) {
    && run.jobId in jobs && run.name == jobs[run.jobId].name
    && run.attempts == jobs[run.jobId].attempts + attempt
    && Decided(run, verdict, jobs[run.jobId].maxAttempts)
  }

  lemma FirstIsDecided(q: Queue, verdict: Verdict, after: Queue, run: JobRun)
    requires Waiting(q) && q.pending != [] && Ran(q, verdict, after, run) && Noted(q, verdict, after, run)
    ensures RunOf(q.jobs, run, verdict, 1)
  {
    assert Ready(q.jobs, q.pending[0]);
  }

  lemma LaterIsDecided(q: Queue, verdict: Verdict, after: Queue, first: JobRun,
                       run: JobRun, met: Verdict, attempt: int)
    requires Noted(q, verdict, after, first) && RunOf(after.jobs, run, met, attempt)
    ensures RunOf(q.jobs, run, met, attempt + if first.jobId == run.jobId then 1 else 0)
  {
  }

  lemma RunsOfMore(run: JobRun, rest: seq<JobRun>, k: nat, id: string)
    requires k <= |rest|
    ensures RunsOf(([run] + rest)[..k + 1], id) == RunsOf(rest[..k], id) + if run.jobId == id then 1 else 0
  {
    assert ([run] + rest)[..k + 1] == [run] + rest[..k];
    assert ([run] + rest[..k])[1..] == rest[..k];
  }

  // The k-th of some runs, told apart by the jobs before them.
  ghost predicate RunAt(jobs: map<string, Job>, runs: seq<JobRun>, k: nat, met: Verdict)
    requires k < |runs|
  {
    RunOf(jobs, runs[k], met, RunsOf(runs[..k + 1], runs[k].jobId))
  }

  lemma LaterOfDrain(q: Queue, verdict: Verdict, after: Queue, run: JobRun, rest: seq<JobRun>, k: nat, met: Verdict)
    requires Noted(q, verdict, after, run) && k < |rest| && RunAt(after.jobs, rest, k, met)
    ensures RunAt(q.jobs, [run] + rest, k + 1, met)
  {
    LaterIsDecided(q, verdict, after, run, rest[k], met, RunsOf(rest[..k + 1], rest[k].jobId));
    RunsOfMore(run, rest, k + 1, rest[k].jobId);
  }

  lemma FirstOfDrain(q: Queue, verdict: Verdict, after: Queue, run: JobRun, rest: seq<JobRun>)
    requires Waiting(q) && q.pending != [] && Ran(q, verdict, after, run) && Noted(q, verdict, after, run)
    ensures RunAt(q.jobs, [run] + rest, 0, verdict)
  {
    FirstIsDecided(q, verdict, after, run);
    RunsOfMore(run, rest, 0, run.jobId);
  }

  // The k-th run of a drain: whose it was, which attempt, and how what it met decided it.
  lemma {:induction false} DrainDecides(q: Queue, verdicts: seq<Verdict>, timeout: string, k: nat)
    requires Waiting(q) && k < |Drained(q, verdicts, timeout).1|
    ensures k < |verdicts| && RunAt(q.jobs, Drained(q, verdicts, timeout).1, k, verdicts[k])
    decreases k
  {
    if verdicts == [] || q.pending == [] {
      NothingToRun(q, verdicts, timeout);
      assert false;
    } else {
      var after, run := FirstNoted(q, verdicts, timeout);
      var rest := Drained(after, verdicts[1..], timeout).1;
      if k == 0 {
        FirstOfDrain(q, verdicts[0], after, run, rest);
      } else {
        DrainDecides(after, verdicts[1..], timeout, k - 1);
        LaterOfDrain(q, verdicts[0], after, run, rest, k - 1, verdicts[k]);
      }
    }
  }

  // -- the class ----------------------------------------------------------

  // What each handler does is an argument of the call that runs it.
  class JobWorker {
    const queue: InMemoryJobQueue
    const timeout: string

    constructor (queue: InMemoryJobQueue, timeout: string)
      ensures this.queue == queue && this.timeout == timeout
    {
      this.queue, this.timeout := queue, timeout;
    }

    method RunOnce(verdict: Verdict) returns (run: Option<JobRun>)
      requires queue.Contents().Valid()
      modifies queue
      ensures (queue.Contents(), run) == OneRun(old(queue.Contents()), verdict, timeout)
    {
      var answer := queue.Dequeue();
      if !answer.Stored? {
        return None;
      }
      var result := Dispatch(answer.job, verdict);
      run := Some(result);
      assert queue.jobs == OneRun(old(queue.Contents()), verdict, timeout).0.jobs;
    }

    method Dispatch(job: Job, verdict: Verdict) returns (run: JobRun)
      requires job.id in queue.jobs && queue.jobs[job.id] == job
      modifies queue
      ensures var outcome := OutcomeOf(job, verdict);
              var error := if verdict.Completed? then None else Some(Reason(job, verdict, timeout));
              && run == JobRun(job.id, job.name, outcome, job.attempts, error)
              && queue.jobs == old(queue.jobs)[job.id := job.(status := StatusAfter(outcome), error := error)]
              && queue.pending == (if outcome == Retrying then old(queue.pending) + [job.id] else old(queue.pending))
              && queue.dead == (if outcome == Outcome.DeadLettered then old(queue.dead) + [job.id] else old(queue.dead))
    {
      if verdict.Completed? {
        var completed := queue.Complete(job.id);
        return JobRun(job.id, job.name, Outcome.Succeeded, completed.job.attempts, None);
      }
      var error := Reason(job, verdict, timeout);
      var recorded := queue.Fail(job.id, error, verdict.Retryable());
      var outcome := if recorded.job.status == Failed then Outcome.DeadLettered else Retrying;
      run := JobRun(job.id, job.name, outcome, recorded.job.attempts, Some(error));
    }

    method Drain(verdicts: seq<Verdict>) returns (runs: seq<JobRun>)
      requires queue.Contents().Valid()
      modifies queue
      ensures (queue.Contents(), runs) == Drained(old(queue.Contents()), verdicts, timeout)
    {
      runs := [];
      ghost var (last, all) := Drained(queue.Contents(), verdicts, timeout);
      for i := 0 to |verdicts|
        invariant queue.Contents().Valid()
        invariant Drained(queue.Contents(), verdicts[i..], timeout).0 == last
        invariant runs + Drained(queue.Contents(), verdicts[i..], timeout).1 == all
      {
        RunOnceRan(queue.Contents(), verdicts[i], timeout);
        assert verdicts[i..][1..] == verdicts[i + 1..];
        var run := RunOnce(verdicts[i]);
        if run.None? {
          break;
        }
        runs := runs + [run.value];
      }
      assert runs + [] == runs;
    }
  }
}
