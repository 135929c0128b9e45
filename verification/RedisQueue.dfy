// The Redis queue (backend/app/jobs/redis_queue.py): the server's commands, each
// of which it applies atomically, and the calls that issue them one after
// another. A pipeline is a MULTI/EXEC transaction, so it counts as one command.
module RedisQueue {
  import opened Wrappers
  import opened Jobs
  import Memory = MemoryQueue

  datatype Server = Server(
    pending: seq<string>,
    processing: seq<string>,
    dead: seq<string>,
    jobs: map<string, Job>)

  const EMPTY := Server([], [], [], map[])

  // -- the server's commands ----------------------------------------------

  // LREM key 1 id: drops the first occurrence, if there is one.
  function LRem(list: seq<string>, id: string): seq<string> {
    if list == [] then []
    else if list[0] == id then list[1..]
    else [list[0]] + LRem(list[1..], id)
  }

  // LMOVE pending processing LEFT RIGHT
  function LMove(s: Server): (Server, Option<string>) {
    if s.pending == [] then
      (s, None)
    else
      (s.(pending := s.pending[1..], processing := s.processing + [s.pending[0]]), Some(s.pending[0]))
  }

  function GetJob(s: Server, id: string): Option<Job> {
    if id in s.jobs then Some(s.jobs[id]) else None
  }

  function SetJob(s: Server, job: Job): Server {
    s.(jobs := s.jobs[job.id := job])
  }

  // SET, RPUSH pending
  function EnqueueTx(s: Server, job: Job): Server {
    SetJob(s, job).(pending := s.pending + [job.id])
  }

  // SET, LREM processing
  function CompleteTx(s: Server, job: Job): Server {
    SetJob(s, job).(processing := LRem(s.processing, job.id))
  }

  // SET, LREM processing, RPUSH dead
  function BuryTx(s: Server, job: Job): Server {
    CompleteTx(s, job).(dead := s.dead + [job.id])
  }

  // SET, LREM processing, RPUSH pending
  function RequeueTx(s: Server, job: Job): Server {
    CompleteTx(s, job).(pending := s.pending + [job.id])
  }

  // The record a failed attempt leaves, and the transaction that stores it.
  function FailTx(s: Server, stored: Job, error: string, retryable: bool): Server {
    if stored.Exhausted() || !retryable then
      BuryTx(s, stored.Dead(error))
    else
      RequeueTx(s, stored.Retried(error))
  }

  // -- the calls, one at a time -------------------------------------------

  // What the queue protocol can observe: everything but the processing list.
  ghost function Visible(s: Server): Memory.Queue {
    Memory.Queue(s.pending, s.jobs, s.dead)
  }

  function Step(s: Server, call: Call): (Server, Answer) {
    match call
    case Enqueue(id, name, payload, maxAttempts) =>
      (match BuildJob(id, name, payload, maxAttempts)
       case Failure(e) => (s, Raised(e))
       case Success(job) => (EnqueueTx(s, job), Stored(job)))
    case Dequeue =>
      var (moved, taken) := LMove(s);
      if taken.None? then
        (moved, Nothing)
      else if GetJob(moved, taken.value).None? then
        (moved, Raised(NotFound))
      else
        var running := GetJob(moved, taken.value).value.Started();
        (SetJob(moved, running), Stored(running))
    case Complete(id) =>
      (match GetJob(s, id)
       case None => (s, Raised(NotFound))
       case Some(stored) => (CompleteTx(s, stored.Done()), Stored(stored.Done())))
    case Fail(id, error, retryable) =>
      (match GetJob(s, id)
       case None => (s, Raised(NotFound))
       case Some(stored) =>
         (FailTx(s, stored, error, retryable),
          Stored(if stored.Exhausted() || !retryable then stored.Dead(error) else stored.Retried(error))))
    case Get(id) =>
      (s, if GetJob(s, id).Some? then Stored(GetJob(s, id).value) else Raised(NotFound))
    case Depth => (s, Count(|s.pending|))
    case DeadLettered => (s, Listed(Records(s, s.dead)))
  }

  // MGET over the dead list, without the identifiers that have no record.
  function Records(s: Server, ids: seq<string>): seq<Job> {
    if ids == [] then []
    else (if ids[0] in s.jobs then [s.jobs[ids[0]]] else []) + Records(s, ids[1..])
  }

  function Run(s: Server, calls: seq<Call>): (Server, seq<Answer>)
    decreases |calls|
  {
    if calls == [] then
      (s, [])
    else
      var (next, answer) := Step(s, calls[0]);
      var (last, answers) := Run(next, calls[1..]);
      (last, [answer] + answers)
  }

  lemma {:induction false} RecordsOfStored(s: Server, ids: seq<string>)
    requires forall i :: 0 <= i < |ids| ==> ids[i] in s.jobs
    ensures |Records(s, ids)| == |ids|
    ensures forall i :: 0 <= i < |ids| ==> Records(s, ids)[i] == s.jobs[ids[i]]
  {
    if ids != [] {
      RecordsOfStored(s, ids[1..]);
      assert ids == [ids[0]] + ids[1..];
    }
  }

  lemma {:induction false} RecordsSnoc(s: Server, ids: seq<string>, id: string)
    ensures Records(s, ids + [id]) == Records(s, ids) + if id in s.jobs then [s.jobs[id]] else []
  {
    if ids == [] {
      assert [id][1..] == [];
    } else {
      assert (ids + [id])[1..] == ids[1..] + [id];
      RecordsSnoc(s, ids[1..], id);
    }
  }

  lemma StepRefines(s: Server, call: Call)
    requires Visible(s).Valid()
    ensures (Visible(Step(s, call).0), Step(s, call).1) == Memory.Step(Visible(s), call)
  {
    if call.DeadLettered? {
      RecordsOfStored(s, s.dead);
      assert Records(s, s.dead) == Memory.Step(Visible(s), call).1.jobs;
    }
  }

  // Every serial run of calls gets the same answers from Redis as from memory,
  // the depths and the dead-letter order among them.
  lemma {:induction false} SerialRefinement(s: Server, calls: seq<Call>)
    requires Visible(s).Valid()
    ensures Run(s, calls).1 == Memory.Run(Visible(s), calls).1
    ensures Visible(Run(s, calls).0) == Memory.Run(Visible(s), calls).0
    decreases |calls|
  {
    if calls != [] {
      StepRefines(s, calls[0]);
      Memory.StepKeepsValid(Visible(s), calls[0]);
      SerialRefinement(Step(s, calls[0]).0, calls[1..]);
    }
  }

  // -- the class ----------------------------------------------------------

  // Each method issues the commands of the source in order; its contract says
  // that what a caller can observe is what the in-memory queue would have done.
  class RedisJobQueue {
    var server: Server

    constructor ()
      ensures server == EMPTY
    {
      server := EMPTY;
    }

    method Enqueue(id: string, name: string, payload: Payload, maxAttempts: int) returns (answer: Answer)
      requires Visible(server).Valid()
      modifies this
      ensures (server, answer) == Step(old(server), Call.Enqueue(id, name, payload, maxAttempts))
      ensures (Visible(server), answer)
           == Memory.Step(old(Visible(server)), Call.Enqueue(id, name, payload, maxAttempts))
    {
      StepRefines(server, Call.Enqueue(id, name, payload, maxAttempts));
      var built := BuildJob(id, name, payload, maxAttempts);
      if built.Failure? {
        return Raised(built.error);
      }
      server := EnqueueTx(server, built.value);
      answer := Stored(built.value);
    }

    method Dequeue() returns (answer: Answer)
      requires Visible(server).Valid()
      modifies this
      ensures (server, answer) == Step(old(server), Call.Dequeue)
      ensures (Visible(server), answer) == Memory.Step(old(Visible(server)), Call.Dequeue)
    {
      StepRefines(server, Call.Dequeue);
      var (moved, taken) := LMove(server);
      server := moved;
      if taken.None? {
        return Nothing;
      }
      var stored := GetJob(server, taken.value);
      if stored.None? {
        return Raised(NotFound);
      }
      var running := stored.value.Started();
      server := SetJob(server, running);
      answer := Stored(running);
    }

    method Complete(id: string) returns (answer: Answer)
      requires Visible(server).Valid()
      modifies this
      ensures (server, answer) == Step(old(server), Call.Complete(id))
      ensures (Visible(server), answer) == Memory.Step(old(Visible(server)), Call.Complete(id))
    {
      StepRefines(server, Call.Complete(id));
      var stored := GetJob(server, id);
      if stored.None? {
        return Raised(NotFound);
      }
      var done := stored.value.Done();
      server := CompleteTx(server, done);
      answer := Stored(done);
    }

    method Fail(id: string, error: string, retryable: bool) returns (answer: Answer)
      requires Visible(server).Valid()
      modifies this
      ensures (server, answer) == Step(old(server), Call.Fail(id, error, retryable))
      ensures (Visible(server), answer) == Memory.Step(old(Visible(server)), Call.Fail(id, error, retryable))
    {
      StepRefines(server, Call.Fail(id, error, retryable));
      var stored := GetJob(server, id);
      if stored.None? {
        return Raised(NotFound);
      }
      if stored.value.Exhausted() || !retryable {
        var dead := stored.value.Dead(error);
        server := BuryTx(server, dead);
        return Stored(dead);
      }
      var retry := stored.value.Retried(error);
      server := RequeueTx(server, retry);
      answer := Stored(retry);
    }

    method Get(id: string) returns (answer: Answer)
      ensures (server, answer) == Step(server, Call.Get(id))
    {
      var stored := GetJob(server, id);
      answer := if stored.Some? then Stored(stored.value) else Raised(NotFound);
    }

    method Depth() returns (answer: Answer)
      ensures (server, answer) == Step(server, Call.Depth)
    {
      answer := Count(|server.pending|);
    }

    method DeadLettered() returns (answer: Answer)
      ensures (server, answer) == Step(server, Call.DeadLettered)
    {
      var ids := server.dead;
      var listed: seq<Job> := [];
      for i := 0 to |ids|
        invariant listed == Records(server, ids[..i])
      {
        var raw := GetJob(server, ids[i]);
        RecordsSnoc(server, ids[..i], ids[i]);
        assert ids[..i + 1] == ids[..i] + [ids[i]];
        if raw.Some? {
          listed := listed + [raw.value];
        }
      }
      assert ids[..|ids|] == ids;
      answer := Listed(listed);
    }
  }
}
