// Background jobs as frozen values (backend/app/jobs/base.py), and the calls a
// queue answers.
module Jobs {
  import opened Wrappers

  const MAX_NAME_LENGTH := 64

  datatype Status = Pending | Running | Succeeded | Failed

  // A payload is carried as its JSON text: `parse(dump(job)) == job` is what
  // payload validation exists to guarantee.
  datatype Job = Job(
    id: string,
    name: string,
    payload: string,
    status: Status,
    attempts: nat,
    maxAttempts: int,
    error: Option<string>)
  {
    predicate Exhausted() {
      attempts >= maxAttempts
    }

    // The value a dequeue stores: marked running, with the attempt counted.
    function Started(): Job {
      this.(status := Running, attempts := attempts + 1)
    }

    function Done(): Job {
      this.(status := Succeeded, error := None)
    }

    function Dead(reason: string): Job {
      this.(status := Failed, error := Some(reason))
    }

    function Retried(reason: string): Job {
      this.(status := Pending, error := Some(reason))
    }
  }

  datatype JobError = DefinitionError | PayloadError | NotFound

  // What a caller hands to enqueue: a mapping that survives a JSON round trip, or not.
  datatype Payload = Json(text: string) | Unstorable

  predicate AllowedInName(c: char) {
    'a' <= c <= 'z' || '0' <= c <= '9' || c == '_'
  }

  const ALLOWED := "abcdefghijklmnopqrstuvwxyz0123456789_"

  // The characters of a job's name, spelled out.
  lemma AllowedExactly(c: char)
    ensures AllowedInName(c) <==> exists i :: 0 <= i < |ALLOWED| && ALLOWED[i] == c
  {
    forall i | 0 <= i < |ALLOWED|
      ensures AllowedInName(ALLOWED[i])
    {
    }
    if AllowedInName(c) {
      var i := if c == '_' then 36 else if c <= '9' then 26 + (c as int - '0' as int) else c as int - 'a' as int;
      assert ALLOWED[i] == c;
    }
  }

  predicate ValidName(name: string) {
    0 < |name| <= MAX_NAME_LENGTH && forall i :: 0 <= i < |name| ==> AllowedInName(name[i])
  }

  // A job no worker has touched, with attempts left to spend.
  predicate Untouched(job: Job) {
    job.status == Pending && job.attempts == 0 && !job.Exhausted() && job.error == None
  }

  function BuildJob(id: string, name: string, payload: Payload, maxAttempts: int): (r: Result<Job, JobError>)
    ensures r.Success? <==> maxAttempts >= 1 && ValidName(name) && payload.Json?
    ensures r.Success? ==> Untouched(r.value) && r.value.id == id && r.value.name == name
                           && r.value.payload == payload.text && r.value.maxAttempts == maxAttempts
    ensures r == Failure(PayloadError) <==> maxAttempts >= 1 && ValidName(name) && payload.Unstorable?
    ensures r.Failure? && r.error != PayloadError ==> r.error == DefinitionError
  {
    if maxAttempts < 1 || !ValidName(name) then
      Failure(DefinitionError)
    else if payload.Unstorable? then
      Failure(PayloadError)
    else
      Success(Job(id, name, payload.text, Pending, 0, maxAttempts, None))
  }

  // One call on a queue. The identifier that enqueue draws at random is an argument.
  datatype Call =
    | Enqueue(id: string, name: string, payload: Payload, maxAttempts: int)
    | Dequeue
    | Complete(id: string)
    | Fail(id: string, error: string, retryable: bool)
    | Get(id: string)
    | Depth
    | DeadLettered

  datatype Answer =
    | Stored(job: Job)
    | Raised(error: JobError)
    | Nothing
    | Count(n: nat)
    | Listed(jobs: seq<Job>)
}
