// The in-process queue (backend/app/jobs/memory.py): its state as a value, what
// each call does to that value, and the class that does it in place.
module MemoryQueue {
  import opened Wrappers
  import opened Jobs

  datatype Queue = Queue(pending: seq<string>, jobs: map<string, Job>, dead: seq<string>)
  {
    // Every listed identifier is stored, under its own identifier.
    ghost predicate Valid() {
      && (forall i :: 0 <= i < |pending| ==> pending[i] in jobs)
      && (forall i :: 0 <= i < |dead| ==> dead[i] in jobs)
      && (forall id :: id in jobs ==> jobs[id].id == id)
    }
  }

  const EMPTY := Queue([], map[], [])

  function Dequeued(q: Queue): (Queue, Answer)
    decreases |q.pending|
  {
    if q.pending == [] then
      (q, Nothing)
    else
      var id, rest := q.pending[0], q.(pending := q.pending[1..]);
      if id !in q.jobs then
        Dequeued(rest)
      else
        var running := q.jobs[id].Started();
        (rest.(jobs := q.jobs[id := running]), Stored(running))
  }

  function Completed(q: Queue, id: string): (Queue, Answer) {
    if id !in q.jobs then
      (q, Raised(NotFound))
    else
      var done := q.jobs[id].Done();
      (q.(jobs := q.jobs[id := done]), Stored(done))
  }

  function Recorded(q: Queue, id: string, error: string, retryable: bool): (Queue, Answer) {
    if id !in q.jobs then
      (q, Raised(NotFound))
    else
      var stored := q.jobs[id];
      if stored.Exhausted() || !retryable then
        var dead := stored.Dead(error);
        (q.(jobs := q.jobs[id := dead], dead := q.dead + [id]), Stored(dead))
      else
        var retry := stored.Retried(error);
        (q.(jobs := q.jobs[id := retry], pending := q.pending + [id]), Stored(retry))
  }

  // The effect and the answer of one call.
  function Step(q: Queue, call: Call): (Queue, Answer)
    requires q.Valid()
  {
    match call
    case Enqueue(id, name, payload, maxAttempts) =>
      (match BuildJob(id, name, payload, maxAttempts)
       case Failure(e) => (q, Raised(e))
       case Success(job) => (q.(jobs := q.jobs[id := job], pending := q.pending + [id]), Stored(job)))
    case Dequeue => Dequeued(q)
    case Complete(id) => Completed(q, id)
    case Fail(id, error, retryable) => Recorded(q, id, error, retryable)
    case Get(id) => (q, if id in q.jobs then Stored(q.jobs[id]) else Raised(NotFound))
    case Depth => (q, Count(|q.pending|))
    case DeadLettered => (q, Listed(seq(|q.dead|, i requires 0 <= i < |q.dead| => q.jobs[q.dead[i]])))
  }

  lemma StepKeepsValid(q: Queue, call: Call)
    requires q.Valid()
    ensures Step(q, call).0.Valid()
  {
  }

  // The answers of a run of calls, in order, and the state after it.
  function Run(q: Queue, calls: seq<Call>): (Queue, seq<Answer>)
    requires q.Valid()
    decreases |calls|
  {
    if calls == [] then
      (q, [])
    else
      var (next, answer) := Step(q, calls[0]);
      StepKeepsValid(q, calls[0]);
      var (last, answers) := Run(next, calls[1..]);
      (last, [answer] + answers)
  }

  // -- first in, first out ------------------------------------------------

  function Dequeues(calls: seq<Call>): nat {
    if calls == [] then 0 else (if calls[0].Dequeue? then 1 else 0) + Dequeues(calls[1..])
  }

  // A job at index k of pending is handed out by exactly the (k+1)-th dequeue
  // from then on, whatever is enqueued, completed or failed meanwhile.
  lemma {:induction false} FirstInFirstOut(q: Queue, calls: seq<Call>, k: nat)
    requires q.Valid() && k < |q.pending|
    requires calls != [] && calls[|calls| - 1].Dequeue? && Dequeues(calls) == k + 1
    ensures var answers := Run(q, calls).1;
            |answers| == |calls|
            && answers[|calls| - 1].Stored? && answers[|calls| - 1].job.id == q.pending[k]
    decreases |calls|
  {
    StepKeepsValid(q, calls[0]);
    var next := Step(q, calls[0]).0;
    if |calls| == 1 {
      assert Run(next, calls[1..]) == (next, []);
    } else if calls[0].Dequeue? {
      if k == 0 {
        LastCounts(calls[1..]);
      }
      FirstInFirstOut(next, calls[1..], k - 1);
    } else {
      FirstInFirstOut(next, calls[1..], k);
    }
  }

  lemma LastCounts(calls: seq<Call>)
    requires calls != [] && calls[|calls| - 1].Dequeue?
    ensures Dequeues(calls) > 0
  {
  }

  // A retried job goes behind everything that was waiting: every waiting job
  // is handed out first, and then the retried one.
  lemma RetryWaitsItsTurn(q: Queue, id: string, error: string, calls: seq<Call>)
    requires q.Valid() && id in q.jobs && !q.jobs[id].Exhausted()
    requires calls != [] && calls[|calls| - 1].Dequeue? && Dequeues(calls) == |q.pending| + 1
    ensures var answers := Run(Step(q, Fail(id, error, true)).0, calls).1;
            answers != [] && answers[|answers| - 1].Stored? && answers[|answers| - 1].job.id == id
  {
    FirstInFirstOut(Step(q, Fail(id, error, true)).0, calls, |q.pending|);
  }

  // A new job waits for exactly those that were waiting when it came.
  lemma EnqueuedWaitsItsTurn(
    q: Queue, id: string, name: string, payload: Payload, maxAttempts: int, calls: seq<Call>)
    requires q.Valid() && BuildJob(id, name, payload, maxAttempts).Success?
    requires calls != [] && calls[|calls| - 1].Dequeue? && Dequeues(calls) == |q.pending| + 1
    ensures var answers := Run(Step(q, Enqueue(id, name, payload, maxAttempts)).0, calls).1;
            answers != [] && answers[|answers| - 1].Stored? && answers[|answers| - 1].job.id == id
  {
    var next := Step(q, Enqueue(id, name, payload, maxAttempts)).0;
    StepKeepsValid(q, Enqueue(id, name, payload, maxAttempts));
    FirstInFirstOut(next, calls, |q.pending|);
  }

  // `depth` answers how many dequeues in a row are still given a job.
  lemma {:induction false} DepthIsWhatIsLeft(q: Queue, calls: seq<Call>)
    requires q.Valid() && forall i :: 0 <= i < |calls| ==> calls[i] == Dequeue
    ensures Step(q, Depth).1.Count?
    ensures var answers := Run(q, calls).1;
            |answers| == |calls| && forall i :: 0 <= i < |calls| ==>
              (if i < Step(q, Depth).1.n then answers[i].Stored? else answers[i] == Nothing)
    decreases |calls|
  {
    if calls != [] {
      StepKeepsValid(q, Dequeue);
      DepthIsWhatIsLeft(Step(q, Dequeue).0, calls[1..]);
    }
  }

  // -- the class ----------------------------------------------------------

  class InMemoryJobQueue {
    var pending: seq<string>
    var jobs: map<string, Job>
    var dead: seq<string>

    ghost function Contents(): Queue
      reads this
    {
      Queue(pending, jobs, dead)
    }

    constructor ()
      ensures Contents() == EMPTY
    {
      pending, jobs, dead := [], map[], [];
    }

    method Enqueue(id: string, name: string, payload: Payload, maxAttempts: int) returns (answer: Answer)
      requires Contents().Valid()
      modifies this
      ensures (Contents(), answer) == Step(old(Contents()), Call.Enqueue(id, name, payload, maxAttempts))
    {
      var built := BuildJob(id, name, payload, maxAttempts);
      if built.Failure? {
        return Raised(built.error);
      }
      var job := built.value;
      jobs := jobs[job.id := job];
      pending := pending + [job.id];
      answer := Stored(job);
    }

    method Dequeue() returns (answer: Answer)
      modifies this
      ensures (Contents(), answer) == Dequeued(old(Contents()))
    {
      while |pending| > 0
        invariant Dequeued(Contents()) == Dequeued(old(Contents()))
        decreases |pending|
      {
        var id := pending[0];
        pending := pending[1..];
        if id !in jobs {
          continue;
        }
        var running := jobs[id].Started();
        jobs := jobs[id := running];
        return Stored(running);
      }
      answer := Nothing;
    }

    method Complete(id: string) returns (answer: Answer)
      modifies this
      ensures (Contents(), answer) == Completed(old(Contents()), id)
    {
      if id !in jobs {
        return Raised(NotFound);
      }
      var done := jobs[id].Done();
      jobs := jobs[id := done];
      answer := Stored(done);
    }

    method Fail(id: string, error: string, retryable: bool) returns (answer: Answer)
      modifies this
      ensures (Contents(), answer) == Recorded(old(Contents()), id, error, retryable)
    {
      if id !in jobs {
        return Raised(NotFound);
      }
      var stored := jobs[id];
      if stored.Exhausted() || !retryable {
        var buried := stored.Dead(error);
        jobs := jobs[id := buried];
        dead := dead + [id];
        return Stored(buried);
      }
      var retry := stored.Retried(error);
      jobs := jobs[id := retry];
      pending := pending + [id];
      answer := Stored(retry);
    }

    method Get(id: string) returns (answer: Answer)
      requires Contents().Valid()
      ensures (Contents(), answer) == Step(Contents(), Call.Get(id))
    {
      answer := if id in jobs then Stored(jobs[id]) else Raised(NotFound);
    }

    method Depth() returns (answer: Answer)
      requires Contents().Valid()
      ensures (Contents(), answer) == Step(Contents(), Call.Depth)
    {
      answer := Count(|pending|);
    }

    method DeadLettered() returns (answer: Answer)
      requires Contents().Valid()
      ensures (Contents(), answer) == Step(Contents(), Call.DeadLettered)
    {
      var listed: seq<Job> := [];
      for i := 0 to |dead|
        invariant |listed| == i && forall j :: 0 <= j < i ==> listed[j] == jobs[dead[j]]
      {
        listed := listed + [jobs[dead[i]]];
      }
      assert listed == Step(Contents(), Call.DeadLettered).1.jobs;
      answer := Listed(listed);
    }
  }
}
