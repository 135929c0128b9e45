// Any number of workers sharing one Redis queue, interleaved command by command,
// any of which may stop for good between two commands
// (backend/app/jobs/redis_queue.py, driven as backend/app/jobs/worker.py does).
module RedisInterleaving {
  import opened Wrappers
  import opened Jobs
  import opened RedisQueue
  import History = JobHistory
  import Memory = MemoryQueue

  // How a worker ends an attempt: `complete`, or `fail` with these arguments.
  datatype Verdict = Finished | Failing(error: string, retryable: bool)

  // Where a worker stands between two commands.
  datatype Phase =
    | Idle
    | Moved(id: string)                          // LMOVE done, GET next
    | Read(stored: Job)                          // GET done, SET next
    | Working(job: Job)                          // the handler runs
    | Deciding(job: Job, verdict: Verdict)       // GET of complete/fail next
    | Committing(stored: Job, verdict: Verdict)  // its transaction next
    | Crashed(held: Option<string>)
  {
    function Held(): Option<string> {
      match this
      case Idle => None
      case Moved(id) => Some(id)
      case Read(stored) => Some(stored.id)
      case Working(job) => Some(job.id)
      case Deciding(job, _) => Some(job.id)
      case Committing(stored, _) => Some(stored.id)
      case Crashed(held) => held
    }
  }

  // What happened to a job, for counting.
  datatype Event = Began(id: string) | Ended(id: string)

  datatype System = System(server: Server, workers: map<nat, Phase>, log: seq<Event>)
  {
    function PhaseOf(w: nat): Phase {
      if w in workers then workers[w] else Idle
    }

    function To(w: nat, phase: Phase): System {
      this.(workers := workers[w := phase])
    }
  }

  const INITIAL := System(EMPTY, map[], [])

  datatype Action =
    | Produce(job: Job)
    | Take(w: nat)
    | Load(w: nat)
    | Begin(w: nat)
    | Decide(w: nat, verdict: Verdict)
    | Reload(w: nat)
    | Commit(w: nat)
    | Crash(w: nat)

  // -- one step -----------------------------------------------------------

  predicate Enabled(s: System, a: Action) {
    match a
    // A fresh random identifier, and a job as `build_job` makes it.
    case Produce(job) =>
      && job.id !in s.server.jobs
      && BuildJob(job.id, job.name, Json(job.payload), job.maxAttempts) == Success(job)
    case Take(w) => s.PhaseOf(w).Idle?
    case Load(w) => s.PhaseOf(w).Moved?
    case Begin(w) => s.PhaseOf(w).Read?
    case Decide(w, _) => s.PhaseOf(w).Working?
    case Reload(w) => s.PhaseOf(w).Deciding?
    case Commit(w) => s.PhaseOf(w).Committing?
    case Crash(w) => !s.PhaseOf(w).Crashed?
  }

  // A missing record raises out of the worker, which is then gone.
  function Next(s: System, a: Action): System
    requires Enabled(s, a)
  {
    match a
    case Produce(job) => s.(server := EnqueueTx(s.server, job))
    case Take(w) =>
      var (moved, taken) := LMove(s.server);
      if taken.None? then s else s.(server := moved).To(w, Moved(taken.value))
    case Load(w) =>
      var id := s.PhaseOf(w).id;
      var found := GetJob(s.server, id);
      if found.None? then s.To(w, Crashed(Some(id))) else s.To(w, Read(found.value))
    case Begin(w) =>
      var running := s.PhaseOf(w).stored.Started();
      s.(server := SetJob(s.server, running), log := s.log + [Began(running.id)]).To(w, Working(running))
    case Decide(w, verdict) => s.To(w, Deciding(s.PhaseOf(w).job, verdict))
    case Reload(w) =>
      var id := s.PhaseOf(w).job.id;
      var found := GetJob(s.server, id);
      if found.None? then s.To(w, Crashed(Some(id)))
      else s.To(w, Committing(found.value, s.PhaseOf(w).verdict))
    case Commit(w) =>
      var stored := s.PhaseOf(w).stored;
      s.(server := Committed(s.server, stored, s.PhaseOf(w).verdict), log := s.log + [Ended(stored.id)])
       .To(w, Idle)
    case Crash(w) => s.To(w, Crashed(s.PhaseOf(w).Held()))
  }

  function Committed(server: Server, stored: Job, verdict: Verdict): Server {
    match verdict
    case Finished => CompleteTx(server, stored.Done())
    case Failing(error, retryable) => FailTx(server, stored, error, retryable)
  }

  // The record a commit leaves.
  function Outcome(stored: Job, verdict: Verdict): Job {
    match verdict
    case Finished => stored.Done()
    case Failing(error, retryable) =>
      if stored.Exhausted() || !retryable then stored.Dead(error) else stored.Retried(error)
  }

  lemma CommittedRecord(server: Server, stored: Job, verdict: Verdict)
    ensures Committed(server, stored, verdict).jobs == server.jobs[stored.id := Outcome(stored, verdict)]
    ensures Outcome(stored, verdict).attempts == stored.attempts
    ensures Outcome(stored, verdict).status != Running
  {
  }

  // The state after a run of actions, if each was possible when it came.
  function After(s: System, actions: seq<Action>): Option<System>
    decreases |actions|
  {
    if actions == [] then Some(s)
    else if !Enabled(s, actions[0]) then None
    else After(Next(s, actions[0]), actions[1..])
  }

  // -- where an identifier is ---------------------------------------------

  function Occ(list: seq<string>, id: string): nat {
    if list == [] then 0 else (if list[0] == id then 1 else 0) + Occ(list[1..], id)
  }

  lemma {:induction false} OccAppend(a: seq<string>, b: seq<string>, id: string)
    ensures Occ(a + b, id) == Occ(a, id) + Occ(b, id)
  {
    if a == [] {
      assert a + b == b;
    } else {
      assert (a + b)[1..] == a[1..] + b;
      OccAppend(a[1..], b, id);
    }
  }

  lemma {:induction false} OccRemoved(list: seq<string>, gone: string, id: string)
    ensures Occ(LRem(list, gone), id)
         == if id == gone && Occ(list, gone) > 0 then Occ(list, id) - 1 else Occ(list, id)
  {
    if list != [] && list[0] != gone {
      OccRemoved(list[1..], gone, id);
      var rest := LRem(list[1..], gone);
      assert ([list[0]] + rest)[1..] == rest;
    }
  }

  function Places(s: Server, id: string): nat {
    Occ(s.pending, id) + Occ(s.processing, id) + Occ(s.dead, id)
    + if id in s.jobs && s.jobs[id].status == Succeeded then 1 else 0
  }

  // -- the invariant ------------------------------------------------------

  ghost predicate RecordOk(s: Server, id: string)
    requires id in s.jobs
  {
    var job := s.jobs[id];
    && job.id == id
    && Places(s, id) == 1
    && (Occ(s.pending, id) > 0 ==> job.status == Pending && job.attempts < job.maxAttempts)
    && (Occ(s.processing, id) > 0 ==>
          || (job.status == Pending && job.attempts < job.maxAttempts)
          || (job.status == Running && 1 <= job.attempts <= job.maxAttempts))
    && (Occ(s.dead, id) > 0 ==> job.status == Failed)
    && job.attempts <= job.maxAttempts
  }

  ghost predicate ServerOk(s: Server) {
    && (forall id :: id in s.jobs ==> RecordOk(s, id))
    && (forall id :: id !in s.jobs ==> Places(s, id) == 0)
  }

  // What a worker has read is still what is stored.
  ghost predicate PhaseOk(s: Server, p: Phase) {
    && (p.Held().Some? ==> p.Held().value in s.jobs && Occ(s.processing, p.Held().value) > 0)
    && (p.Moved? ==> s.jobs[p.id].status == Pending)
    && (p.Read? ==> s.jobs[p.stored.id] == p.stored && p.stored.status == Pending)
    && (p.Working? || p.Deciding? ==> s.jobs[p.job.id] == p.job && p.job.status == Running)
    && (p.Committing? ==> s.jobs[p.stored.id] == p.stored && p.stored.status == Running)
  }

  ghost predicate Holds(s: System, w: nat, id: string) {
    s.PhaseOf(w).Held() == Some(id)
  }

  ghost predicate HeldByOne(s: System) {
    && (forall v: nat, w: nat, id :: Holds(s, v, id) && Holds(s, w, id) ==> v == w)
    && (forall id :: Occ(s.server.processing, id) > 0 ==> exists w: nat :: Holds(s, w, id))
  }

  function Tally(log: seq<Event>, e: Event): nat {
    if log == [] then 0 else (if log[|log| - 1] == e then 1 else 0) + Tally(log[..|log| - 1], e)
  }

  ghost predicate LogOk(s: System, id: string) {
    if id in s.server.jobs then
      var job := s.server.jobs[id];
      && Tally(s.log, Began(id)) == job.attempts
      && Tally(s.log, Began(id)) == Tally(s.log, Ended(id)) + if job.status == Running then 1 else 0
    else
      Tally(s.log, Began(id)) == Tally(s.log, Ended(id)) == 0
  }

  ghost predicate Inv(s: System) {
    && ServerOk(s.server)
    && (forall w: nat :: PhaseOk(s.server, s.PhaseOf(w)))
    && HeldByOne(s)
    && (forall id :: LogOk(s, id))
  }

  // -- every step keeps it ------------------------------------------------

  // A list's first element, moved to the end of another list.
  lemma LMoveOcc(s: Server, id: string)
    requires s.pending != []
    ensures var moved := LMove(s).0;
            var hit := if id == s.pending[0] then 1 else 0;
            && Occ(moved.pending, id) == Occ(s.pending, id) - hit
            && Occ(moved.processing, id) == Occ(s.processing, id) + hit
            && Places(moved, id) == Places(s, id)
  {
    OccAppend(s.processing, [s.pending[0]], id);
  }

  // A commit takes the identifier out of processing and puts it in one place.
  lemma CommittedOcc(s: Server, stored: Job, verdict: Verdict, id: string)
    requires Occ(s.processing, stored.id) > 0
    ensures var after := Committed(s, stored, verdict);
            var hit := if id == stored.id then 1 else 0;
            var buried := verdict.Failing? && (stored.Exhausted() || !verdict.retryable);
            && Occ(after.processing, id) == Occ(s.processing, id) - hit
            && Occ(after.pending, id) == Occ(s.pending, id) + (if verdict.Failing? && !buried then hit else 0)
            && Occ(after.dead, id) == Occ(s.dead, id) + (if buried then hit else 0)
  {
    OccRemoved(s.processing, stored.id, id);
    OccAppend(s.pending, [stored.id], id);
    OccAppend(s.dead, [stored.id], id);
  }

  lemma TallyAppend(log: seq<Event>, e: Event, other: Event)
    ensures Tally(log + [e], other) == Tally(log, other) + if e == other then 1 else 0
  {
    assert (log + [e])[..|log|] == log;
  }

  lemma ProduceServerOk(s: Server, job: Job)
    requires ServerOk(s) && job.id !in s.jobs && Untouched(job)
    ensures ServerOk(EnqueueTx(s, job))
    ensures forall id :: Occ(EnqueueTx(s, job).pending, id) == Occ(s.pending, id) + if id == job.id then 1 else 0
  {
    var t := EnqueueTx(s, job);
    forall id
      ensures Occ(t.pending, id) == Occ(s.pending, id) + if id == job.id then 1 else 0
    {
      OccAppend(s.pending, [job.id], id);
    }
    assert Places(s, job.id) == 0;
    forall id | id in t.jobs
      ensures RecordOk(t, id)
    {
      assert id != job.id ==> RecordOk(s, id);
    }
  }

  lemma ProduceKeeps(s: System, job: Job)
    requires Inv(s) && Enabled(s, Produce(job))
    ensures Inv(Next(s, Produce(job)))
  {
    var t := Next(s, Produce(job));
    ProduceServerOk(s.server, job);
    forall w: nat
      ensures t.PhaseOf(w) == s.PhaseOf(w) && PhaseOk(t.server, t.PhaseOf(w))
    {
      assert PhaseOk(s.server, s.PhaseOf(w));
    }
    HeldByOneFrame(s, t);
    forall id
      ensures LogOk(t, id)
    {
      assert LogOk(s, id);
    }
  }

  lemma HeldByOneFrame(s: System, t: System)
    requires HeldByOne(s) && t.server.processing == s.server.processing
    requires forall w: nat :: t.PhaseOf(w).Held() == s.PhaseOf(w).Held()
    ensures HeldByOne(t)
  {
    forall v: nat, w: nat, id | Holds(t, v, id) && Holds(t, w, id)
      ensures v == w
    {
      assert Holds(s, v, id) && Holds(s, w, id);
    }
    forall id | Occ(t.server.processing, id) > 0
      ensures exists w: nat :: Holds(t, w, id)
    {
      var w: nat :| Holds(s, w, id);
      assert Holds(t, w, id);
    }
  }

  lemma TakeServerOk(s: Server)
    requires ServerOk(s) && s.pending != []
    ensures ServerOk(LMove(s).0)
    ensures s.pending[0] in s.jobs && s.jobs[s.pending[0]].status == Pending
    ensures Occ(s.pending, s.pending[0]) > 0 && Occ(s.processing, s.pending[0]) == 0
  {
    assert Places(s, s.pending[0]) > 0;
    assert RecordOk(s, s.pending[0]);
    forall id
      ensures id in s.jobs ==> RecordOk(LMove(s).0, id)
      ensures id !in s.jobs ==> Places(LMove(s).0, id) == 0
    {
      LMoveOcc(s, id);
      assert id in s.jobs ==> RecordOk(s, id);
    }
  }

  lemma TakeHeldByOne(s: System, w: nat)
    requires Inv(s) && Enabled(s, Take(w)) && s.server.pending != []
    ensures HeldByOne(Next(s, Take(w)))
  {
    var t := Next(s, Take(w));
    var id0 := s.server.pending[0];
    TakeServerOk(s.server);
    forall v: nat | v != w
      ensures !Holds(t, v, id0) && t.PhaseOf(v) == s.PhaseOf(v)
    {
      assert PhaseOk(s.server, s.PhaseOf(v));
    }
    forall u: nat, v: nat, id | Holds(t, u, id) && Holds(t, v, id)
      ensures u == v
    {
      if u != w && v != w {
        assert Holds(s, u, id) && Holds(s, v, id);
      }
    }
    forall id | Occ(t.server.processing, id) > 0
      ensures exists v: nat :: Holds(t, v, id)
    {
      if id == id0 {
        assert Holds(t, w, id);
      } else {
        LMoveOcc(s.server, id);
        var v: nat :| Holds(s, v, id);
        assert Holds(t, v, id);
      }
    }
  }

  lemma TakeKeeps(s: System, w: nat)
    requires Inv(s) && Enabled(s, Take(w))
    ensures Inv(Next(s, Take(w)))
  {
    if s.server.pending != [] {
      var t := Next(s, Take(w));
      TakeServerOk(s.server);
      TakeHeldByOne(s, w);
      forall v: nat
        ensures PhaseOk(t.server, t.PhaseOf(v))
      {
        assert PhaseOk(s.server, s.PhaseOf(v));
        if t.PhaseOf(v).Held().Some? {
          LMoveOcc(s.server, t.PhaseOf(v).Held().value);
        }
      }
      forall id
        ensures LogOk(t, id)
      {
        assert LogOk(s, id);
      }
    }
  }

  // A step that touches no server state and keeps what is held.
  lemma PhaseChangeKeeps(s: System, w: nat, p: Phase)
    requires Inv(s) && p.Held() == s.PhaseOf(w).Held() && PhaseOk(s.server, p)
    ensures Inv(s.To(w, p))
  {
    var t := s.To(w, p);
    forall v: nat
      ensures t.PhaseOf(v).Held() == s.PhaseOf(v).Held() && PhaseOk(t.server, t.PhaseOf(v))
    {
      assert PhaseOk(s.server, s.PhaseOf(v));
    }
    HeldByOneFrame(s, t);
    forall id
      ensures LogOk(t, id)
    {
      assert LogOk(s, id);
    }
  }

  lemma LoadKeeps(s: System, w: nat)
    requires Inv(s) && Enabled(s, Load(w))
    ensures Inv(Next(s, Load(w)))
  {
    assert PhaseOk(s.server, s.PhaseOf(w));
    var id := s.PhaseOf(w).id;
    assert RecordOk(s.server, id);
    PhaseChangeKeeps(s, w, Read(s.server.jobs[id]));
  }

  lemma ReloadKeeps(s: System, w: nat)
    requires Inv(s) && Enabled(s, Reload(w))
    ensures Inv(Next(s, Reload(w)))
  {
    assert PhaseOk(s.server, s.PhaseOf(w));
    var id := s.PhaseOf(w).job.id;
    assert RecordOk(s.server, id);
    PhaseChangeKeeps(s, w, Committing(s.server.jobs[id], s.PhaseOf(w).verdict));
  }

  lemma BeginServerOk(s: Server, stored: Job)
    requires ServerOk(s) && stored.id in s.jobs && s.jobs[stored.id] == stored
    requires Occ(s.processing, stored.id) > 0 && stored.status == Pending
    ensures ServerOk(SetJob(s, stored.Started()))
  {
    var t := SetJob(s, stored.Started());
    forall id | id in t.jobs
      ensures RecordOk(t, id)
    {
      assert RecordOk(s, id);
    }
  }

  lemma BeginKeeps(s: System, w: nat)
    requires Inv(s) && Enabled(s, Begin(w))
    ensures Inv(Next(s, Begin(w)))
  {
    var t := Next(s, Begin(w));
    var stored := s.PhaseOf(w).stored;
    assert PhaseOk(s.server, s.PhaseOf(w));
    assert Holds(s, w, stored.id);
    BeginServerOk(s.server, stored);
    forall v: nat
      ensures t.PhaseOf(v).Held() == s.PhaseOf(v).Held() && PhaseOk(t.server, t.PhaseOf(v))
    {
      assert PhaseOk(s.server, s.PhaseOf(v));
      if v != w && s.PhaseOf(v).Held().Some? {
        assert Holds(s, v, s.PhaseOf(v).Held().value);
      }
    }
    HeldByOneFrame(s, t);
    BeginLogOk(s, w);
  }

  lemma BeginLogOk(s: System, w: nat)
    requires Inv(s) && Enabled(s, Begin(w))
    ensures forall id :: LogOk(Next(s, Begin(w)), id)
  {
    var stored := s.PhaseOf(w).stored;
    assert PhaseOk(s.server, s.PhaseOf(w));
    forall id
      ensures LogOk(Next(s, Begin(w)), id)
    {
      assert LogOk(s, id);
      TallyAppend(s.log, Began(stored.id), Began(id));
      TallyAppend(s.log, Began(stored.id), Ended(id));
    }
  }

  lemma CommitKeeps(s: System, w: nat)
    requires Inv(s) && Enabled(s, Commit(w))
    ensures Inv(Next(s, Commit(w)))
  {
    var t := Next(s, Commit(w));
    var stored, verdict := s.PhaseOf(w).stored, s.PhaseOf(w).verdict;
    assert PhaseOk(s.server, s.PhaseOf(w));
    assert Holds(s, w, stored.id);
    CommitServerOk(s.server, stored, verdict);
    CommitHeldByOne(s, w);
    CommitLogOk(s, w);
    forall v: nat
      ensures PhaseOk(t.server, t.PhaseOf(v))
    {
      assert PhaseOk(s.server, s.PhaseOf(v));
      if v != w && s.PhaseOf(v).Held().Some? {
        var id := s.PhaseOf(v).Held().value;
        assert Holds(s, v, id);
        CommittedOcc(s.server, stored, verdict, id);
      }
    }
  }

  lemma CommitLogOk(s: System, w: nat)
    requires Inv(s) && Enabled(s, Commit(w))
    ensures forall id :: LogOk(Next(s, Commit(w)), id)
  {
    var stored, verdict := s.PhaseOf(w).stored, s.PhaseOf(w).verdict;
    assert PhaseOk(s.server, s.PhaseOf(w));
    CommittedRecord(s.server, stored, verdict);
    EndedLogOk(s, Next(s, Commit(w)), stored, Outcome(stored, verdict));
  }

  lemma EndedLogOk(s: System, t: System, stored: Job, ended: Job)
    requires forall id :: LogOk(s, id)
    requires stored.id in s.server.jobs && s.server.jobs[stored.id] == stored && stored.status == Running
    requires ended.attempts == stored.attempts && ended.status != Running
    requires t.server.jobs == s.server.jobs[stored.id := ended] && t.log == s.log + [Ended(stored.id)]
    ensures forall id :: LogOk(t, id)
  {
    forall id
      ensures LogOk(t, id)
    {
      assert LogOk(s, id);
      TallyAppend(s.log, Ended(stored.id), Began(id));
      TallyAppend(s.log, Ended(stored.id), Ended(id));
    }
  }

  lemma CommitServerOk(s: Server, stored: Job, verdict: Verdict)
    requires ServerOk(s) && stored.id in s.jobs && s.jobs[stored.id] == stored
    requires Occ(s.processing, stored.id) > 0 && stored.status == Running
    ensures ServerOk(Committed(s, stored, verdict))
  {
    var t := Committed(s, stored, verdict);
    forall id
      ensures id in t.jobs ==> RecordOk(t, id)
      ensures id !in t.jobs ==> Places(t, id) == 0
    {
      CommittedOcc(s, stored, verdict, id);
      assert RecordOk(s, stored.id);
      assert id in s.jobs ==> RecordOk(s, id);
    }
  }

  lemma CommitHeldByOne(s: System, w: nat)
    requires Inv(s) && Enabled(s, Commit(w))
    ensures HeldByOne(Next(s, Commit(w)))
  {
    var t := Next(s, Commit(w));
    var stored, verdict := s.PhaseOf(w).stored, s.PhaseOf(w).verdict;
    assert PhaseOk(s.server, s.PhaseOf(w));
    assert RecordOk(s.server, stored.id);
    forall u: nat, v: nat, id | Holds(t, u, id) && Holds(t, v, id)
      ensures u == v
    {
      assert Holds(s, u, id) && Holds(s, v, id);
    }
    forall id | Occ(t.server.processing, id) > 0
      ensures exists v: nat :: Holds(t, v, id)
    {
      CommittedOcc(s.server, stored, verdict, id);
      var v: nat :| Holds(s, v, id);
      assert id != stored.id;
      assert Holds(t, v, id);
    }
  }

  lemma StepKeepsInv(s: System, a: Action)
    requires Inv(s) && Enabled(s, a)
    ensures Inv(Next(s, a))
  {
    match a
    case Produce(job) => ProduceKeeps(s, job);
    case Take(w) => TakeKeeps(s, w);
    case Load(w) => LoadKeeps(s, w);
    case Begin(w) => BeginKeeps(s, w);
    case Decide(w, verdict) =>
      assert PhaseOk(s.server, s.PhaseOf(w));
      PhaseChangeKeeps(s, w, Deciding(s.PhaseOf(w).job, verdict));
    case Reload(w) => ReloadKeeps(s, w);
    case Commit(w) => CommitKeeps(s, w);
    case Crash(w) =>
      assert PhaseOk(s.server, s.PhaseOf(w));
      PhaseChangeKeeps(s, w, Crashed(s.PhaseOf(w).Held()));
  }

  lemma {:induction false} RunKeepsInv(s: System, actions: seq<Action>)
    requires Inv(s) && After(s, actions).Some?
    ensures Inv(After(s, actions).value)
    decreases |actions|
  {
    if actions != [] {
      StepKeepsInv(s, actions[0]);
      RunKeepsInv(Next(s, actions[0]), actions[1..]);
    }
  }

  lemma InitialInv()
    ensures Inv(INITIAL)
  {
  }

  // -- what every run guarantees ------------------------------------------

  ghost predicate Reached(actions: seq<Action>, s: System) {
    After(INITIAL, actions) == Some(s)
  }

  // The identifiers a run has enqueued.
  function Produced(actions: seq<Action>): set<string> {
    if actions == [] then {}
    else (if actions[0].Produce? then {actions[0].job.id} else {}) + Produced(actions[1..])
  }

  lemma StepStores(s: System, a: Action)
    requires Inv(s) && Enabled(s, a)
    ensures Next(s, a).server.jobs.Keys == s.server.jobs.Keys + Produced([a])
  {
    assert [a][1..] == [];
    if a.Begin? || a.Commit? {
      assert PhaseOk(s.server, s.PhaseOf(a.w));
    }
  }

  lemma {:induction false} NothingIsForgotten(s: System, actions: seq<Action>)
    requires Inv(s) && After(s, actions).Some?
    ensures After(s, actions).value.server.jobs.Keys == s.server.jobs.Keys + Produced(actions)
    decreases |actions|
  {
    if actions != [] {
      StepKeepsInv(s, actions[0]);
      StepStores(s, actions[0]);
      assert Produced([actions[0]]) + Produced(actions[1..]) == Produced(actions) by {
        assert [actions[0]][1..] == [];
      }
      NothingIsForgotten(Next(s, actions[0]), actions[1..]);
    }
  }

  // Every enqueued identifier, and no other, is stored; it is in exactly one of
  // pending, processing, dead and SUCCEEDED, however the workers interleave and
  // wherever they crash.
  lemma EachJobIsInOnePlace(actions: seq<Action>, s: System, id: string)
    requires Reached(actions, s)
    ensures id in s.server.jobs <==> id in Produced(actions)
    ensures Places(s.server, id) == if id in Produced(actions) then 1 else 0
    ensures Occ(s.server.dead, id) > 0 ==> s.server.jobs[id].status == Failed
    ensures Occ(s.server.pending, id) > 0 ==> s.server.jobs[id].status == Pending
  {
    InitialInv();
    RunKeepsInv(INITIAL, actions);
    NothingIsForgotten(INITIAL, actions);
    assert id in s.server.jobs ==> RecordOk(s.server, id);
  }

  ghost predicate CanGoOn(s: System, w: nat) {
    || Enabled(s, Load(w)) || Enabled(s, Begin(w)) || Enabled(s, Decide(w, Finished))
    || Enabled(s, Reload(w)) || Enabled(s, Commit(w))
  }

  // A processing identifier has exactly one holder, and it is stranded only if
  // that holder crashed.
  lemma OneHolder(actions: seq<Action>, s: System, id: string)
    requires Reached(actions, s)
    ensures Occ(s.server.processing, id) == 1 <==> exists w: nat :: Holds(s, w, id)
    ensures forall v: nat, w: nat :: Holds(s, v, id) && Holds(s, w, id) ==> v == w
    ensures forall w: nat :: Holds(s, w, id) ==> s.PhaseOf(w).Crashed? || CanGoOn(s, w)
  {
    InitialInv();
    RunKeepsInv(INITIAL, actions);
    assert Places(s.server, id) <= 1 by {
      assert id in s.server.jobs ==> RecordOk(s.server, id);
    }
    if w: nat :| Holds(s, w, id) {
      assert PhaseOk(s.server, s.PhaseOf(w));
    }
  }

  // `attempts` counts exactly the dequeues that reached their write, never passes
  // the budget, and every attempt but one that is still running was ended once.
  lemma AttemptsAreCounted(actions: seq<Action>, s: System, id: string)
    requires Reached(actions, s) && id in s.server.jobs
    ensures var job := s.server.jobs[id];
            && job.attempts == Tally(s.log, Began(id)) <= job.maxAttempts
            && Tally(s.log, Ended(id)) == job.attempts - if job.status == Running then 1 else 0
  {
    InitialInv();
    RunKeepsInv(INITIAL, actions);
    assert LogOk(s, id) && RecordOk(s.server, id);
  }

  // A GET-then-SET never overwrites a record that changed in between.
  lemma NoLostUpdate(actions: seq<Action>, s: System, w: nat)
    requires Reached(actions, s) && (Enabled(s, Begin(w)) || Enabled(s, Commit(w)))
    ensures var read := s.PhaseOf(w).stored;
            GetJob(s.server, read.id) == Some(read)
  {
    InitialInv();
    RunKeepsInv(INITIAL, actions);
    assert PhaseOk(s.server, s.PhaseOf(w));
  }

  // -- refinement ---------------------------------------------------------

  // A dequeue takes effect at its LMOVE: a job already moved to processing but
  // not yet written back counts as started.
  ghost function Abs(s: Server): Memory.Queue {
    Memory.Queue(s.pending, map id | id in s.jobs :: Seen(s, id), s.dead)
  }

  ghost function Seen(s: Server, id: string): Job
    requires id in s.jobs
  {
    if Occ(s.processing, id) > 0 && s.jobs[id].status == Pending then s.jobs[id].Started() else s.jobs[id]
  }

  // The queue call that takes effect at a command, if one does.
  function CallOf(s: System, a: Action): Option<Call>
    requires Enabled(s, a)
  {
    match a
    case Produce(job) => Some(Enqueue(job.id, job.name, Json(job.payload), job.maxAttempts))
    case Take(_) => Some(Dequeue)
    case Commit(w) => Some(CallFor(s.PhaseOf(w).stored.id, s.PhaseOf(w).verdict))
    case _ => None
  }

  function CallFor(id: string, verdict: Verdict): Call {
    match verdict
    case Finished => Complete(id)
    case Failing(error, retryable) => Fail(id, error, retryable)
  }

  // What that call answers: to a dequeue, the job as its worker will be handed it.
  function AnswerOf(s: System, a: Action): Answer
    requires Enabled(s, a)
  {
    match a
    case Produce(job) => Stored(job)
    case Take(_) =>
      if s.server.pending == [] || s.server.pending[0] !in s.server.jobs then Nothing
      else Stored(s.server.jobs[s.server.pending[0]].Started())
    case Commit(w) => Stored(Outcome(s.PhaseOf(w).stored, s.PhaseOf(w).verdict))
    case _ => Nothing
  }

  function Calls(s: System, actions: seq<Action>): seq<Call>
    requires After(s, actions).Some?
    decreases |actions|
  {
    if actions == [] then []
    else
      var call := CallOf(s, actions[0]);
      (if call.Some? then [call.value] else []) + Calls(Next(s, actions[0]), actions[1..])
  }

  function Answers(s: System, actions: seq<Action>): seq<Answer>
    requires After(s, actions).Some?
    decreases |actions|
  {
    if actions == [] then []
    else
      (if CallOf(s, actions[0]).Some? then [AnswerOf(s, actions[0])] else [])
      + Answers(Next(s, actions[0]), actions[1..])
  }

  lemma {:induction false} OccMember(list: seq<string>, i: nat)
    requires i < |list|
    ensures Occ(list, list[i]) > 0
  {
    if i > 0 {
      OccMember(list[1..], i - 1);
    }
  }

  lemma AbsValid(s: Server)
    requires ServerOk(s)
    ensures Abs(s).Valid()
  {
    forall i | 0 <= i < |s.pending|
      ensures s.pending[i] in s.jobs
    {
      OccMember(s.pending, i);
      assert Places(s, s.pending[i]) > 0;
    }
    forall i | 0 <= i < |s.dead|
      ensures s.dead[i] in s.jobs
    {
      OccMember(s.dead, i);
      assert Places(s, s.dead[i]) > 0;
    }
    forall id | id in s.jobs
      ensures Abs(s).jobs[id].id == id
    {
      assert RecordOk(s, id);
    }
  }

  lemma MovedIsSeenStarted(s: Server, id: string)
    requires ServerOk(s) && s.pending != [] && id in s.jobs
    ensures s.pending[0] in s.jobs && Seen(s, s.pending[0]) == s.jobs[s.pending[0]]
    ensures Seen(LMove(s).0, id) == if id == s.pending[0] then s.jobs[id].Started() else Seen(s, id)
  {
    var first := s.pending[0];
    OccMember(s.pending, 0);
    assert first in s.jobs ==> RecordOk(s, first);
    LMoveOcc(s, id);
  }

  lemma TakeRefines(s: System, w: nat)
    requires Inv(s) && Enabled(s, Take(w)) && Abs(s.server).Valid()
    ensures Memory.Step(Abs(s.server), Dequeue) == (Abs(Next(s, Take(w)).server), AnswerOf(s, Take(w)))
  {
    if s.server.pending != [] {
      LMoveRefines(s.server);
    }
  }

  lemma LMoveRefines(s: Server)
    requires ServerOk(s) && s.pending != [] && Abs(s).Valid()
    ensures s.pending[0] in s.jobs
    ensures Memory.Step(Abs(s), Dequeue) == (Abs(LMove(s).0), Stored(s.jobs[s.pending[0]].Started()))
  {
    var t := LMove(s).0;
    MovedIsSeenStarted(s, s.pending[0]);
    var expected := Memory.Step(Abs(s), Dequeue).0;
    forall id | id in t.jobs
      ensures Seen(t, id) == expected.jobs[id]
    {
      MovedIsSeenStarted(s, id);
    }
    assert Abs(t).jobs == expected.jobs;
  }

  lemma EnqueuedIsSeen(s: Server, job: Job, id: string)
    requires ServerOk(s) && job.id !in s.jobs && (id in s.jobs || id == job.id)
    ensures Seen(EnqueueTx(s, job), id) == if id == job.id then job else Seen(s, id)
  {
    assert Places(s, job.id) == 0;
  }

  lemma EnqueueRefines(s: Server, job: Job)
    requires ServerOk(s) && job.id !in s.jobs
    ensures Abs(EnqueueTx(s, job)) == Abs(s).(pending := s.pending + [job.id], jobs := Abs(s).jobs[job.id := job])
  {
    var t := EnqueueTx(s, job);
    forall id | id in t.jobs
      ensures Seen(t, id) == if id == job.id then job else Seen(s, id)
    {
      EnqueuedIsSeen(s, job, id);
    }
    assert Abs(t).jobs == Abs(s).jobs[job.id := job];
  }

  lemma ProduceRefines(s: System, job: Job)
    requires Inv(s) && Enabled(s, Produce(job)) && Abs(s.server).Valid()
    ensures Memory.Step(Abs(s.server), Enqueue(job.id, job.name, Json(job.payload), job.maxAttempts))
         == (Abs(Next(s, Produce(job)).server), Stored(job))
  {
    EnqueueRefines(s.server, job);
  }

  lemma CommittedIsSeen(s: Server, stored: Job, verdict: Verdict, id: string)
    requires ServerOk(s) && stored.id in s.jobs && s.jobs[stored.id] == stored && id in s.jobs
    requires Occ(s.processing, stored.id) > 0 && stored.status == Running
    ensures var t := Committed(s, stored, verdict);
            && t.jobs == s.jobs[stored.id := Outcome(stored, verdict)]
            && Seen(t, id) == if id == stored.id then Outcome(stored, verdict) else Seen(s, id)
  {
    CommittedOcc(s, stored, verdict, id);
    assert RecordOk(s, stored.id);
  }

  lemma CommittedAbs(s: Server, stored: Job, verdict: Verdict)
    requires ServerOk(s) && stored.id in s.jobs && s.jobs[stored.id] == stored
    requires Occ(s.processing, stored.id) > 0 && stored.status == Running
    ensures Abs(s).jobs[stored.id] == stored
    ensures Abs(Committed(s, stored, verdict)).jobs == Abs(s).jobs[stored.id := Outcome(stored, verdict)]
  {
    CommittedIsSeen(s, stored, verdict, stored.id);
    forall id | id in s.jobs
      ensures Seen(Committed(s, stored, verdict), id) ==
              if id == stored.id then Outcome(stored, verdict) else Seen(s, id)
    {
      CommittedIsSeen(s, stored, verdict, id);
    }
  }

  lemma CommittedRefines(s: Server, stored: Job, verdict: Verdict)
    requires ServerOk(s) && stored.id in s.jobs && s.jobs[stored.id] == stored && Abs(s).Valid()
    requires Occ(s.processing, stored.id) > 0 && stored.status == Running
    ensures Memory.Step(Abs(s), CallFor(stored.id, verdict))
         == (Abs(Committed(s, stored, verdict)), Stored(Outcome(stored, verdict)))
  {
    CommittedAbs(s, stored, verdict);
  }

  lemma CommitRefines(s: System, w: nat)
    requires Inv(s) && Enabled(s, Commit(w)) && Abs(s.server).Valid()
    ensures CallOf(s, Commit(w)).Some?
    ensures Memory.Step(Abs(s.server), CallOf(s, Commit(w)).value)
         == (Abs(Next(s, Commit(w)).server), Stored(Outcome(s.PhaseOf(w).stored, s.PhaseOf(w).verdict)))
  {
    assert PhaseOk(s.server, s.PhaseOf(w));
    CommittedRefines(s.server, s.PhaseOf(w).stored, s.PhaseOf(w).verdict);
  }

  lemma BeginRefines(s: System, w: nat)
    requires Inv(s) && Enabled(s, Begin(w))
    ensures Abs(Next(s, Begin(w)).server) == Abs(s.server)
  {
    assert PhaseOk(s.server, s.PhaseOf(w));
    var stored := s.PhaseOf(w).stored;
    var t := Next(s, Begin(w)).server;
    assert t.jobs == s.server.jobs[stored.id := stored.Started()];
    assert Abs(t).jobs == Abs(s.server).jobs;
  }

  lemma QuietStepRefines(s: System, a: Action)
    requires Inv(s) && Enabled(s, a) && CallOf(s, a).None?
    ensures Abs(Next(s, a).server) == Abs(s.server)
  {
    if a.Begin? {
      BeginRefines(s, a.w);
    } else {
      assert Next(s, a).server == s.server;
    }
  }

  lemma StepRefines(s: System, a: Action)
    requires Inv(s) && Enabled(s, a) && Abs(s.server).Valid()
    ensures if CallOf(s, a).Some?
            then Memory.Step(Abs(s.server), CallOf(s, a).value) == (Abs(Next(s, a).server), AnswerOf(s, a))
            else Abs(Next(s, a).server) == Abs(s.server)
  {
    match a {
      case Produce(job) => ProduceRefines(s, job);
      case Take(w) => TakeRefines(s, w);
      case Commit(w) => CommitRefines(s, w);
      case _ => QuietStepRefines(s, a);
    }
  }

  // Every run of the interleaved machine is, seen through Abs, a run of the
  // in-memory queue: each command is one queue call or changes nothing, and the
  // calls get the same answers.
  lemma {:induction false} InterleavingRefinesMemory(s: System, actions: seq<Action>)
    requires Inv(s) && After(s, actions).Some?
    ensures Abs(s.server).Valid()
    ensures Memory.Run(Abs(s.server), Calls(s, actions)) ==
            (Abs(After(s, actions).value.server), Answers(s, actions))
    decreases |actions|
  {
    AbsValid(s.server);
    if actions != [] {
      var a := actions[0];
      StepKeepsInv(s, a);
      StepRefines(s, a);
      InterleavingRefinesMemory(Next(s, a), actions[1..]);
      var calls, rest := Calls(s, actions), Calls(Next(s, a), actions[1..]);
      if CallOf(s, a).Some? {
        assert calls[0] == CallOf(s, a).value && calls[1..] == rest;
      } else {
        assert calls == rest;
        assert Answers(s, actions) == Answers(Next(s, a), actions[1..]);
      }
    }
  }

  // So what the calls of an interleaved run say of each job is what the system holds.
  lemma InterleavingIsTold(actions: seq<Action>, s: System)
    requires Reached(actions, s)
    ensures var calls, answers := Calls(INITIAL, actions), Answers(INITIAL, actions);
            |calls| == |answers| && History.Tells(History.Exchanges(calls, answers), Abs(s.server))
  {
    var calls := Calls(INITIAL, actions);
    InitialInv();
    InterleavingRefinesMemory(INITIAL, actions);
    assert Abs(INITIAL.server) == Memory.EMPTY;
    History.RecordsTellTheRun(calls, Depth);
  }

  // -- what readers see ---------------------------------------------------

  ghost predicate Found(server: Server, id: string, answer: Answer) {
    answer == if GetJob(server, id).Some? then Stored(GetJob(server, id).value) else Raised(NotFound)
  }

  // At any point of a run `depth` answers what the in-memory queue would, and so does `get`
  // exactly unless the job is between its LMOVE and its SET: then it still reads as pending.
  lemma ReadersAgreeExactly(actions: seq<Action>, s: System, id: string)
    requires Reached(actions, s)
    ensures Abs(s.server).Valid()
    ensures Found(s.server, id, Memory.Step(Abs(s.server), Get(id)).1) <==>
            !(id in s.server.jobs && Occ(s.server.processing, id) > 0 && s.server.jobs[id].status == Pending)
    ensures Memory.Step(Abs(s.server), Depth).1 == Count(|s.server.pending|)
  {
    InitialInv();
    RunKeepsInv(INITIAL, actions);
    AbsValid(s.server);
    assert id !in s.server.jobs ==> Places(s.server, id) == 0;
  }

  lemma DeadStepStays(s: System, a: Action, id: string)
    requires Inv(s) && Enabled(s, a) && Occ(s.server.dead, id) > 0
    ensures var t := Next(s, a).server;
            && id in s.server.jobs && id in t.jobs && t.jobs[id] == s.server.jobs[id]
            && Occ(t.dead, id) > 0
  {
    assert Places(s.server, id) > 0;
    assert RecordOk(s.server, id);
    if a.Begin? || a.Commit? {
      assert PhaseOk(s.server, s.PhaseOf(a.w));
      if a.Commit? {
        CommittedOcc(s.server, s.PhaseOf(a.w).stored, s.PhaseOf(a.w).verdict, id);
      }
    }
  }

  // A buried job stays buried, and its record does not change.
  lemma {:induction false} DeadStays(s: System, actions: seq<Action>, id: string)
    requires Inv(s) && After(s, actions).Some? && Occ(s.server.dead, id) > 0
    ensures var t := After(s, actions).value.server;
            id in s.server.jobs && id in t.jobs && t.jobs[id] == s.server.jobs[id]
    decreases |actions|
  {
    if actions == [] {
      assert Places(s.server, id) > 0;
    } else {
      DeadStepStays(s, actions[0], id);
      StepKeepsInv(s, actions[0]);
      DeadStays(Next(s, actions[0]), actions[1..], id);
    }
  }

  lemma DoneStepStays(s: System, a: Action, id: string)
    requires Inv(s) && Enabled(s, a) && id in s.server.jobs && s.server.jobs[id].status == Succeeded
    ensures id in Next(s, a).server.jobs && Next(s, a).server.jobs[id] == s.server.jobs[id]
  {
    assert RecordOk(s.server, id);
    if a.Begin? || a.Commit? {
      assert PhaseOk(s.server, s.PhaseOf(a.w));
    }
  }

  // A job that succeeded stays so, and its record does not change.
  lemma {:induction false} SuccessStays(s: System, actions: seq<Action>, id: string)
    requires Inv(s) && After(s, actions).Some?
    requires id in s.server.jobs && s.server.jobs[id].status == Succeeded
    ensures var t := After(s, actions).value.server;
            id in t.jobs && t.jobs[id] == s.server.jobs[id]
    decreases |actions|
  {
    if actions != [] {
      DoneStepStays(s, actions[0], id);
      StepKeepsInv(s, actions[0]);
      SuccessStays(Next(s, actions[0]), actions[1..], id);
    }
  }

  // `dead_lettered` lists the identifiers with one command and reads their records with a
  // later one; whatever happens in between, it answers for the moment it listed them.
  lemma DeadLetteredIsAtomic(s: System, actions: seq<Action>)
    requires Inv(s) && After(s, actions).Some?
    ensures Abs(s.server).Valid()
    ensures Listed(Records(After(s, actions).value.server, s.server.dead)) ==
            Memory.Step(Abs(s.server), DeadLettered).1
  {
    AbsValid(s.server);
    var t, ids := After(s, actions).value.server, s.server.dead;
    forall i | 0 <= i < |ids|
      ensures ids[i] in t.jobs && t.jobs[ids[i]] == Abs(s.server).jobs[ids[i]]
    {
      OccMember(ids, i);
      DeadStays(s, actions, ids[i]);
      assert RecordOk(s.server, ids[i]);
    }
    RecordsOfStored(t, ids);
    assert Records(t, ids) == Memory.Step(Abs(s.server), DeadLettered).1.jobs;
  }

  // -- what a worker is handed --------------------------------------------

  // The enqueue that made a job, if the run has one.
  function ProducedAs(actions: seq<Action>, id: string): (made: Option<Job>)
    ensures made.Some? ==> made.value.id == id
  {
    if actions == [] then None
    else if actions[0].Produce? && actions[0].job.id == id then Some(actions[0].job)
    else ProducedAs(actions[1..], id)
  }

  // What enqueueing fixes for good.
  ghost predicate SameOrder(a: Job, b: Job) {
    a.id == b.id && a.name == b.name && a.payload == b.payload && a.maxAttempts == b.maxAttempts
  }

  lemma StepKeepsOrder(s: System, a: Action, id: string)
    requires Inv(s) && Enabled(s, a) && id in Next(s, a).server.jobs
    ensures if id in s.server.jobs then SameOrder(Next(s, a).server.jobs[id], s.server.jobs[id])
            else a.Produce? && Next(s, a).server.jobs[id] == a.job && a.job.id == id
  {
    if a.Begin? || a.Commit? {
      assert PhaseOk(s.server, s.PhaseOf(a.w));
    }
  }

  lemma {:induction false} RunKeepsOrder(s: System, actions: seq<Action>, id: string)
    requires Inv(s) && After(s, actions).Some? && id in After(s, actions).value.server.jobs
    ensures var job := After(s, actions).value.server.jobs[id];
            if id in s.server.jobs then SameOrder(job, s.server.jobs[id])
            else ProducedAs(actions, id).Some? && SameOrder(job, ProducedAs(actions, id).value)
    decreases |actions|
  {
    if actions != [] {
      var next := Next(s, actions[0]);
      StepKeepsInv(s, actions[0]);
      RunKeepsOrder(next, actions[1..], id);
      if id in next.server.jobs {
        StepKeepsOrder(s, actions[0], id);
      } else {
        StepStores(s, actions[0]);
      }
    }
  }

  // However the workers interleave and wherever they crash, the job a worker runs has the name,
  // the payload and the attempt limit it was enqueued with.
  lemma WorkingAsProduced(actions: seq<Action>, s: System, w: nat)
    requires Reached(actions, s) && s.PhaseOf(w).Working?
    ensures var job := s.PhaseOf(w).job;
            && ProducedAs(actions, job.id).Some? && SameOrder(job, ProducedAs(actions, job.id).value)
            && job.status == Running && 1 <= job.attempts <= job.maxAttempts
  {
    InitialInv();
    RunKeepsInv(INITIAL, actions);
    assert PhaseOk(s.server, s.PhaseOf(w));
    RunKeepsOrder(INITIAL, actions, s.PhaseOf(w).job.id);
    assert RecordOk(s.server, s.PhaseOf(w).job.id);
  }

  // When nobody holds a job, nothing is hidden: the lists and the records are what the
  // in-memory queue would hold after the same calls.
  lemma QuietSystemIsMemory(actions: seq<Action>, s: System)
    requires Reached(actions, s) && forall w: nat :: s.PhaseOf(w).Held().None?
    ensures s.server.processing == []
    ensures Visible(s.server) == Memory.Run(Memory.EMPTY, Calls(INITIAL, actions)).0
  {
    InitialInv();
    RunKeepsInv(INITIAL, actions);
    InterleavingRefinesMemory(INITIAL, actions);
    assert Abs(INITIAL.server) == Memory.EMPTY;
    forall id
      ensures Occ(s.server.processing, id) == 0
    {
      assert forall w: nat :: !Holds(s, w, id);
    }
    EmptyIfNone(s.server.processing);
    NothingHidden(s.server);
  }

  lemma EmptyIfNone(list: seq<string>)
    requires forall id :: Occ(list, id) == 0
    ensures list == []
  {
    assert list != [] ==> Occ(list, list[0]) > 0;
  }

  lemma NothingHidden(s: Server)
    requires s.processing == []
    ensures Abs(s) == Visible(s)
  {
    assert Abs(s).jobs == s.jobs;
  }

  predicate NoCommitBy(w: nat, actions: seq<Action>) {
    forall i :: 0 <= i < |actions| ==> actions[i] != Commit(w)
  }

  lemma CommitLeavesOthers(s: System, v: nat, w: nat, id: string)
    requires Inv(s) && Enabled(s, Commit(v)) && Holds(s, w, id) && v != w
    ensures id in Abs(s.server).jobs && id in Abs(Next(s, Commit(v)).server).jobs
    ensures Abs(Next(s, Commit(v)).server).jobs[id] == Abs(s.server).jobs[id]
  {
    assert PhaseOk(s.server, s.PhaseOf(w)) && PhaseOk(s.server, s.PhaseOf(v));
    var stored := s.PhaseOf(v).stored;
    assert Holds(s, v, stored.id);
    CommittedAbs(s.server, stored, s.PhaseOf(v).verdict);
  }

  lemma TakeLeavesOthers(s: System, v: nat, w: nat, id: string)
    requires Inv(s) && Enabled(s, Take(v)) && Holds(s, w, id)
    ensures id in Abs(s.server).jobs && id in Abs(Next(s, Take(v)).server).jobs
    ensures Abs(Next(s, Take(v)).server).jobs[id] == Abs(s.server).jobs[id]
  {
    assert PhaseOk(s.server, s.PhaseOf(w));
    if s.server.pending != [] {
      TakeServerOk(s.server);
      LMoveOcc(s.server, id);
    }
  }

  lemma ProduceLeavesOthers(s: System, job: Job, w: nat, id: string)
    requires Inv(s) && Enabled(s, Produce(job)) && Holds(s, w, id)
    ensures id in Abs(s.server).jobs && id in Abs(Next(s, Produce(job)).server).jobs
    ensures Abs(Next(s, Produce(job)).server).jobs[id] == Abs(s.server).jobs[id]
  {
    assert PhaseOk(s.server, s.PhaseOf(w));
  }

  lemma HoldsUntilCommit(s: System, a: Action, w: nat, id: string)
    requires Inv(s) && Enabled(s, a) && Holds(s, w, id) && a != Commit(w)
    ensures Holds(Next(s, a), w, id)
  {
    assert PhaseOk(s.server, s.PhaseOf(w));
    assert a.Reload? ==> PhaseOk(s.server, s.PhaseOf(a.w));
  }

  // Whatever else happens, the record of a held job is its holder's alone.
  lemma HeldStep(s: System, a: Action, w: nat, id: string)
    requires Inv(s) && Enabled(s, a) && Holds(s, w, id) && a != Commit(w)
    ensures id in Abs(s.server).jobs && id in Abs(Next(s, a).server).jobs
    ensures Abs(Next(s, a).server).jobs[id] == Abs(s.server).jobs[id]
  {
    match a {
      case Take(v) => TakeLeavesOthers(s, v, w, id);
      case Commit(v) => CommitLeavesOthers(s, v, w, id);
      case Produce(job) => ProduceLeavesOthers(s, job, w, id);
      case _ =>
        assert PhaseOk(s.server, s.PhaseOf(w));
        QuietStepRefines(s, a);
    }
  }

  // The job a worker runs is the very job the in-memory dequeue returned when the
  // worker's LMOVE took effect: until the holder commits, nobody changes it.
  lemma {:induction false} DeliveredAsDequeued(s: System, w: nat, actions: seq<Action>)
    requires Inv(s) && Enabled(s, Take(w)) && s.server.pending != []
    requires After(Next(s, Take(w)), actions).Some? && NoCommitBy(w, actions)
    ensures Abs(s.server).Valid()
    ensures var t := After(Next(s, Take(w)), actions).value;
            t.PhaseOf(w).Working? ==>
              Memory.Step(Abs(s.server), Dequeue).1 == Stored(t.PhaseOf(w).job)
  {
    AbsValid(s.server);
    TakeRefines(s, w);
    TakeKeeps(s, w);
    var id := s.server.pending[0];
    HeldUntilCommit(Next(s, Take(w)), w, id, actions);
    var t := After(Next(s, Take(w)), actions).value;
    RunKeepsInv(Next(s, Take(w)), actions);
    assert PhaseOk(t.server, t.PhaseOf(w));
    assert id in s.server.jobs;
  }

  lemma {:induction false} HeldUntilCommit(s: System, w: nat, id: string, actions: seq<Action>)
    requires Inv(s) && Holds(s, w, id)
    requires After(s, actions).Some? && NoCommitBy(w, actions)
    ensures var t := After(s, actions).value;
            Holds(t, w, id) && id in s.server.jobs && id in t.server.jobs
            && Abs(t.server).jobs[id] == Abs(s.server).jobs[id]
    decreases |actions|
  {
    if actions == [] {
      assert PhaseOk(s.server, s.PhaseOf(w));
    } else {
      HeldStep(s, actions[0], w, id);
      HoldsUntilCommit(s, actions[0], w, id);
      StepKeepsInv(s, actions[0]);
      HeldUntilCommit(Next(s, actions[0]), w, id, actions[1..]);
    }
  }
}
