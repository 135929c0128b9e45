// Fixed-window rate limiting, in one process (backend/app/ratelimit/limiters.py)
// and in Redis (backend/app/ratelimit/redis_limiter.py). Clock readings are reals.
module RateLimit {
  import opened Wrappers

  datatype Decision = Decision(allowed: bool, remaining: int, retryAfter: int)

  datatype ConfigError = BadLimit | BadWindow

  function Validate(limit: int, window: int): (r: Result<(nat, nat), ConfigError>)
    ensures r.Success? <==> limit >= 1 && window >= 1
    ensures r.Success? ==> r.value == (limit, window)
    ensures r.Failure? ==> (r.error == BadLimit <==> limit < 1)
  {
    if limit < 1 then Failure(BadLimit)
    else if window < 1 then Failure(BadWindow)
    else Success((limit, window))
  }

  // -- windows ------------------------------------------------------------

  // `int(now // window)` and `now % window`
  function WindowOf(now: real, window: nat): int
    requires window >= 1
  {
    (now / window as real).Floor
  }

  function Elapsed(now: real, window: nat): real
    requires window >= 1
  {
    now - WindowOf(now, window) as real * window as real
  }

  lemma WindowBounds(now: real, window: nat)
    requires window >= 1
    ensures WindowOf(now, window) as real * window as real <= now
    ensures now < (WindowOf(now, window) + 1) as real * window as real
    ensures 0.0 <= Elapsed(now, window) < window as real
  {
    var q, w := now / window as real, window as real;
    assert q * w == now;
    assert q.Floor as real <= q < q.Floor as real + 1.0;
    assert (q.Floor + 1) as real == q.Floor as real + 1.0;
    MulOrder(q.Floor as real, q, w);
    MulStrict(q, (q.Floor + 1) as real, w);
    assert WindowOf(now, window) == q.Floor;
    assert now < (q.Floor + 1) as real * w;
  }

  lemma MulOrder(a: real, b: real, w: real)
    requires a <= b && w > 0.0
    ensures a * w <= b * w
  {
  }

  lemma MulStrict(a: real, b: real, w: real)
    requires a < b && w > 0.0
    ensures a * w < b * w
  {
  }

  lemma WindowOrder(now: real, j: int, k: int, w: real)
    requires w > 0.0 && j as real * w <= now < (k + 1) as real * w
    ensures j <= k
  {
    if k + 1 <= j {
      MulOrder((k + 1) as real, j as real, w);
    }
  }

  // The window of an instant is the only one whose bounds hold it.
  lemma WindowUnique(now: real, window: nat, k: int)
    requires window >= 1
    requires k as real * window as real <= now < (k + 1) as real * window as real
    ensures WindowOf(now, window) == k
  {
    WindowBounds(now, window);
    WindowOrder(now, k, WindowOf(now, window), window as real);
    WindowOrder(now, WindowOf(now, window), k, window as real);
  }

  lemma WindowMonotone(a: real, b: real, window: nat)
    requires window >= 1 && a <= b
    ensures WindowOf(a, window) <= WindowOf(b, window)
  {
    WindowBounds(a, window);
    WindowBounds(b, window);
    WindowOrder(b, WindowOf(a, window), WindowOf(b, window), window as real);
  }

  // -- the verdict --------------------------------------------------------

  function Ceil(x: real): int {
    -((-x).Floor)
  }

  function Max(a: int, b: int): int {
    if a >= b then a else b
  }

  // `_decide`
  function Decide(used: int, limit: nat, window: nat, now: real): Decision
    requires window >= 1
  {
    if used > limit then Decision(false, 0, Max(1, Ceil(window as real - Elapsed(now, window))))
    else Decision(true, limit - used, 0)
  }

  // A refused caller is told the least whole number of seconds that reaches the
  // next window, and it lies in 1..window.
  lemma RetryAfterIsExact(used: int, limit: nat, window: nat, now: real, seconds: nat)
    requires window >= 1 && used > limit
    ensures var retry := Decide(used, limit, window, now).retryAfter;
            && 1 <= retry <= window
            && (WindowOf(now + seconds as real, window) > WindowOf(now, window) <==> seconds >= retry)
  {
    WindowBounds(now, window);
    var k, w := WindowOf(now, window), window as real;
    var left := w - Elapsed(now, window);
    assert left == (k + 1) as real * w - now by {
      assert (k + 1) as real * w == k as real * w + w;
    }
    var later := now + seconds as real;
    if seconds as real >= left {
      WindowMonotone((k + 1) as real * w, later, window);
      WindowUnique((k + 1) as real * w, window, k + 1);
    } else {
      WindowUnique(later, window, k);
    }
  }

  // -- a counter that never forgets ---------------------------------------

  datatype Request = Request(key: string, at: real)

  // The requests of a key in a window, over a whole history.
  function CountIn(history: seq<Request>, key: string, k: int, window: nat): nat
    requires window >= 1
  {
    if history == [] then 0
    else
      var last := history[|history| - 1];
      CountIn(history[..|history| - 1], key, k, window)
      + if last.key == key && WindowOf(last.at, window) == k then 1 else 0
  }

  // The verdict that counting every request ever made would give.
  function Verdict(history: seq<Request>, request: Request, limit: nat, window: nat): Decision
    requires window >= 1
  {
    Decide(CountIn(history, request.key, WindowOf(request.at, window), window) + 1, limit, window, request.at)
  }

  ghost predicate Nondecreasing(history: seq<Request>) {
    forall i, j :: 0 <= i < j < |history| ==> history[i].at <= history[j].at
  }

  ghost predicate NotBefore(history: seq<Request>, now: real) {
    forall i :: 0 <= i < |history| ==> history[i].at <= now
  }

  predicate AllowedAt(history: seq<Request>, i: nat, limit: nat, window: nat)
    requires window >= 1 && i < |history|
  {
    Verdict(history[..i], history[i], limit, window).allowed
  }

  // The allowed requests of a key in one window.
  function AllowedIn(history: seq<Request>, key: string, k: int, limit: nat, window: nat): nat
    requires window >= 1
  {
    if history == [] then 0
    else
      var n := |history| - 1;
      AllowedIn(history[..n], key, k, limit, window)
      + if history[n].key == key && WindowOf(history[n].at, window) == k && AllowedAt(history, n, limit, window)
        then 1 else 0
  }

  // In a window, exactly the first `limit` requests of a key are allowed.
  lemma {:induction false} WindowAllowsLimit(history: seq<Request>, key: string, k: int, limit: nat, window: nat)
    requires window >= 1
    ensures AllowedIn(history, key, k, limit, window)
         == if CountIn(history, key, k, window) <= limit then CountIn(history, key, k, window) else limit
    decreases |history|
  {
    if history != [] {
      WindowAllowsLimit(history[..|history| - 1], key, k, limit, window);
    }
  }

  lemma {:induction false} CountAppend(a: seq<Request>, b: seq<Request>, key: string, k: int, window: nat)
    requires window >= 1
    ensures CountIn(a + b, key, k, window) == CountIn(a, key, k, window) + CountIn(b, key, k, window)
  {
    if b == [] {
      assert a + b == a;
    } else {
      assert (a + b)[..|a + b| - 1] == a + b[..|b| - 1];
      CountAppend(a, b[..|b| - 1], key, k, window);
    }
  }

  // What a decision leaves is what it says: of the requests that its key makes in the same
  // window afterwards, whatever else comes between, exactly the first `remaining` are allowed.
  lemma RemainingIsWhatIsLeft(
    before: seq<Request>, request: Request, between: seq<Request>, next: Request, limit: nat, window: nat)
    requires window >= 1 && next.key == request.key
    requires WindowOf(next.at, window) == WindowOf(request.at, window)
    ensures var decision := Verdict(before, request, limit, window);
            && decision.remaining >= 0 && (decision.allowed <==> decision.retryAfter == 0)
            && (Verdict(before + [request] + between, next, limit, window).allowed <==>
                  CountIn(between, request.key, WindowOf(request.at, window), window) < decision.remaining)
  {
    var k := WindowOf(request.at, window);
    CountAppend(before + [request], between, request.key, k, window);
    OneMoreCounted(before, request, k, window);
  }

  // The allowed requests of a key in the half-open interval [from, from + window).
  function AllowedSince(history: seq<Request>, key: string, from: real, limit: nat, window: nat): nat
    requires window >= 1
  {
    if history == [] then 0
    else
      var n := |history| - 1;
      AllowedSince(history[..n], key, from, limit, window)
      + if history[n].key == key && from <= history[n].at < from + window as real
           && AllowedAt(history, n, limit, window)
        then 1 else 0
  }

  lemma {:induction false} IntervalInTwoWindows(history: seq<Request>, key: string, from: real, limit: nat, window: nat)
    requires window >= 1
    ensures var k := WindowOf(from, window);
            AllowedSince(history, key, from, limit, window)
            <= AllowedIn(history, key, k, limit, window) + AllowedIn(history, key, k + 1, limit, window)
    decreases |history|
  {
    if history != [] {
      var n := |history| - 1;
      IntervalInTwoWindows(history[..n], key, from, limit, window);
      if from <= history[n].at < from + window as real {
        OneOfTwoWindows(from, history[n].at, window);
      }
    }
  }

  lemma OneOfTwoWindows(from: real, at: real, window: nat)
    requires window >= 1 && from <= at < from + window as real
    ensures WindowOf(at, window) == WindowOf(from, window) || WindowOf(at, window) == WindowOf(from, window) + 1
  {
    WindowBounds(from, window);
    var k, w := WindowOf(from, window), window as real;
    assert (k + 1) as real * w == k as real * w + w;
    assert (k + 2) as real * w == (k + 1) as real * w + w;
    if at < (k + 1) as real * w {
      WindowUnique(at, window, k);
    } else {
      WindowUnique(at, window, k + 1);
    }
  }

  // Any interval of one window's length lets at most twice the limit through.
  lemma SlidingBound(history: seq<Request>, key: string, from: real, limit: nat, window: nat)
    requires window >= 1
    ensures AllowedSince(history, key, from, limit, window) <= 2 * limit
  {
    IntervalInTwoWindows(history, key, from, limit, window);
    WindowAllowsLimit(history, key, WindowOf(from, window), limit, window);
    WindowAllowsLimit(history, key, WindowOf(from, window) + 1, limit, window);
  }

  lemma OneMoreCounted(before: seq<Request>, request: Request, k: int, window: nat)
    requires window >= 1
    ensures CountIn(before + [request], request.key, k, window) ==
            CountIn(before, request.key, k, window) + if WindowOf(request.at, window) == k then 1 else 0
  {
    assert (before + [request])[..|before|] == before;
  }

  lemma OneMoreAllowed(before: seq<Request>, request: Request, from: real, limit: nat, window: nat)
    requires window >= 1 && from <= request.at < from + window as real
    requires CountIn(before, request.key, WindowOf(request.at, window), window) < limit
    ensures AllowedSince(before + [request], request.key, from, limit, window) ==
            AllowedSince(before, request.key, from, limit, window) + 1
  {
    assert (before + [request])[..|before|] == before;
  }

  lemma OneMoreOrdered(before: seq<Request>, request: Request)
    requires NotBefore(before, request.at) && Nondecreasing(before)
    ensures NotBefore(before + [request], request.at) && Nondecreasing(before + [request])
  {
  }

  // A history followed by the same request n times over; `other` is any other window.
  lemma {:induction false} Burst(
    history: seq<Request>, request: Request, n: nat, from: real, limit: nat, window: nat, other: int)
    returns (after: seq<Request>)
    requires window >= 1 && n <= limit && from <= request.at < from + window as real
    requires other != WindowOf(request.at, window)
    requires CountIn(history, request.key, WindowOf(request.at, window), window) == 0
    requires NotBefore(history, request.at) && Nondecreasing(history)
    ensures NotBefore(after, request.at) && Nondecreasing(after)
    ensures CountIn(after, request.key, WindowOf(request.at, window), window) == n
    ensures CountIn(after, request.key, other, window) == CountIn(history, request.key, other, window)
    ensures AllowedSince(after, request.key, from, limit, window) ==
            AllowedSince(history, request.key, from, limit, window) + n
    decreases n
  {
    if n == 0 {
      after := history;
    } else {
      var before := Burst(history, request, n - 1, from, limit, window, other);
      OneMoreCounted(before, request, WindowOf(request.at, window), window);
      OneMoreCounted(before, request, other, window);
      OneMoreAllowed(before, request, from, limit, window);
      OneMoreOrdered(before, request);
      after := before + [request];
    }
  }

  // The bound is exact: a limit's worth just before a window ends and another just after
  // it begins are all let through.
  lemma TwiceTheLimitIsReached(key: string, limit: nat, window: nat) returns (history: seq<Request>, from: real)
    requires window >= 1
    ensures Nondecreasing(history) && AllowedSince(history, key, from, limit, window) == 2 * limit
  {
    var w := window as real;
    var late, early := Request(key, w - 0.5), Request(key, w);
    from := w - 0.5;
    WindowUnique(late.at, window, 0);
    WindowUnique(early.at, window, 1);
    var first := Burst([], late, limit, from, limit, window, 1);
    history := Burst(first, early, limit, from, limit, window, 0);
  }

  // -- in one process -----------------------------------------------------

  class InMemoryRateLimiter {
    const limit: nat
    const window: nat
    var counts: map<(string, int), nat>
    ghost var history: seq<Request>

    // From the newest window on, the table and the whole history agree.
    ghost predicate Valid()
      reads this
    {
      && limit >= 1 && window >= 1
      && Nondecreasing(history)
      && forall key, k :: Counts(counts, key, k) == CountIn(history, key, k, window) || Passed(k)
    }

    // A window that a nondecreasing clock never enters again.
    ghost predicate Passed(k: int)
      reads this
      requires window >= 1
    {
      history != [] && k < WindowOf(history[|history| - 1].at, window)
    }

    constructor (limit: nat, window: nat)
      requires Validate(limit, window).Success?
      ensures Valid() && history == [] && this.limit == limit && this.window == window
    {
      this.limit, this.window, counts, history := limit, window, map[], [];
    }

    method Check(key: string, now: real) returns (decision: Decision)
      requires Valid() && NotBefore(history, now)
      modifies this
      ensures Valid() && history == old(history) + [Request(key, now)]
      ensures decision == Verdict(old(history), Request(key, now), limit, window)
    {
      var k := WindowOf(now, window);
      Prune(k);
      var used := Counts(counts, key, k) + 1;
      PassedBefore(history, now, window);
      counts := counts[(key, k) := used];
      history := history + [Request(key, now)];
      decision := Decide(used, limit, window, now);
      CountGrows(old(history), Request(key, now), window);
    }

    method Prune(current: int)
      modifies this`counts
      ensures forall key, k :: Counts(counts, key, k) == if k < current then 0 else Counts(old(counts), key, k)
    {
      var stale := set entry | entry in counts && entry.1 < current;
      while stale != {}
        invariant forall entry :: entry in stale ==> entry in counts && entry.1 < current
        invariant forall entry :: entry in counts && entry.1 < current ==> entry in stale
        invariant forall key, k :: k >= current ==> Counts(counts, key, k) == Counts(old(counts), key, k)
        decreases stale
      {
        var entry :| entry in stale;
        counts := counts - {entry};
        stale := stale - {entry};
      }
    }
  }

  function Counts(counts: map<(string, int), nat>, key: string, k: int): nat {
    if (key, k) in counts then counts[(key, k)] else 0
  }

  lemma PassedBefore(history: seq<Request>, now: real, window: nat)
    requires window >= 1 && NotBefore(history, now)
    ensures history != [] ==> WindowOf(history[|history| - 1].at, window) <= WindowOf(now, window)
  {
    if history != [] {
      WindowMonotone(history[|history| - 1].at, now, window);
    }
  }

  lemma CountGrows(history: seq<Request>, request: Request, window: nat)
    requires window >= 1
    ensures forall key, k :: CountIn(history + [request], key, k, window)
              == CountIn(history, key, k, window)
                 + if request.key == key && WindowOf(request.at, window) == k then 1 else 0
  {
    assert (history + [request])[..|history|] == history;
  }

  // -- in Redis -----------------------------------------------------------

  // A request reads the server's clock in one round trip and is counted in the next. Several
  // processes share the server, so requests are listed in the order they are counted.
  datatype Arrival = Arrival(key: string, readAt: real, appliedAt: real)

  datatype Entry = Entry(count: nat, expiresAt: real)

  // A counter the server still holds at this instant.
  predicate Live(store: map<(string, int), Entry>, key: string, k: int, now: real) {
    (key, k) in store && now < store[(key, k)].expiresAt
  }

  // MULTI, INCR, EXPIRE NX, EXEC: the lifetime is set only on a counter that has none.
  function Incremented(store: map<(string, int), Entry>, key: string, k: int, now: real, window: nat)
    : (r: (map<(string, int), Entry>, nat))
    ensures (key, k) in r.0 && r.0[(key, k)].count == r.1
  {
    if Live(store, key, k, now) then
      var entry := store[(key, k)];
      (store[(key, k) := entry.(count := entry.count + 1)], entry.count + 1)
    else
      (store[(key, k) := Entry(1, now + window as real)], 1)
  }

  predicate Counted(a: Arrival, key: string, k: int, window: nat)
    requires window >= 1
  {
    a.key == key && WindowOf(a.readAt, window) == k
  }

  // How many arrivals belong to a counter, and when the first of them was counted.
  function Total(history: seq<Arrival>, key: string, k: int, window: nat): nat
    requires window >= 1
  {
    if history == [] then 0
    else
      Total(history[..|history| - 1], key, k, window)
      + if Counted(history[|history| - 1], key, k, window) then 1 else 0
  }

  function First(history: seq<Arrival>, key: string, k: int, window: nat): (first: Option<real>)
    requires window >= 1
    ensures first.None? <==> Total(history, key, k, window) == 0
  {
    if history == [] then None
    else
      var before, last := First(history[..|history| - 1], key, k, window), history[|history| - 1];
      if before.None? && Counted(last, key, k, window) then Some(last.appliedAt) else before
  }

  // When the counter was last created, and how often it has been incremented since.
  function Birth(history: seq<Arrival>, key: string, k: int, window: nat): Option<(real, nat)>
    requires window >= 1
  {
    if history == [] then None
    else
      var before, last := Birth(history[..|history| - 1], key, k, window), history[|history| - 1];
      if !Counted(last, key, k, window) then before
      else if before.Some? && last.appliedAt < before.value.0 + window as real
      then Some((before.value.0, before.value.1 + 1))
      else Some((last.appliedAt, 1))
  }

  // What INCR returns to an arrival.
  function Used(history: seq<Arrival>, a: Arrival, window: nat): nat
    requires window >= 1
  {
    var birth := Birth(history, a.key, WindowOf(a.readAt, window), window);
    if birth.Some? && a.appliedAt < birth.value.0 + window as real then birth.value.1 + 1 else 1
  }

  ghost predicate InOrder(history: seq<Arrival>) {
    && (forall i :: 0 <= i < |history| ==> history[i].readAt <= history[i].appliedAt)
    && (forall i, j :: 0 <= i < j < |history| ==> history[i].appliedAt <= history[j].appliedAt)
  }

  ghost predicate AppliedBy(history: seq<Arrival>, now: real) {
    forall i :: 0 <= i < |history| ==> history[i].appliedAt <= now
  }

  // The counter is the one first created exactly as long as no arrival came a whole window
  // after its creation.
  lemma {:induction false} BirthAndFirst(history: seq<Arrival>, key: string, k: int, window: nat, now: real)
    requires window >= 1 && InOrder(history) && AppliedBy(history, now)
    ensures var birth, first := Birth(history, key, k, window), First(history, key, k, window);
            var total := Total(history, key, k, window);
            && (birth.None? <==> total == 0)
            && (total > 0 ==>
                  && first.value <= birth.value.0 <= now
                  && 1 <= birth.value.1 <= total
                  && (birth.value.0 == first.value <==> birth.value.1 == total)
                  && (birth.value.0 == first.value || birth.value.0 >= first.value + window as real))
  {
    if history != [] {
      var before, last := history[..|history| - 1], history[|history| - 1];
      BirthAndFirst(before, key, k, window, last.appliedAt);
    }
  }

  // A count is that of all arrivals of its window exactly while the window's first counter
  // lives: for one window's length after its first increment.
  lemma CountIsExact(history: seq<Arrival>, a: Arrival, window: nat)
    requires window >= 1 && InOrder(history) && AppliedBy(history, a.appliedAt)
    ensures var k := WindowOf(a.readAt, window);
            Used(history, a, window) == Total(history, a.key, k, window) + 1 <==>
              Total(history, a.key, k, window) == 0 ||
              a.appliedAt < First(history, a.key, k, window).value + window as real
  {
    BirthAndFirst(history, a.key, WindowOf(a.readAt, window), window, a.appliedAt);
  }

  lemma {:induction false} FirstIsInWindow(history: seq<Arrival>, key: string, k: int, window: nat)
    requires window >= 1 && InOrder(history) && First(history, key, k, window).Some?
    ensures k as real * window as real <= First(history, key, k, window).value
  {
    var before, last := history[..|history| - 1], history[|history| - 1];
    if First(before, key, k, window).Some? {
      FirstIsInWindow(before, key, k, window);
    } else {
      WindowBounds(last.readAt, window);
    }
  }

  lemma EndOfWindow(now: real, window: nat, k: int, first: real)
    requires window >= 1 && WindowOf(now, window) == k && k as real * window as real <= first
    ensures now < first + window as real
  {
    WindowBounds(now, window);
    assert (k + 1) as real * window as real == k as real * window as real + window as real;
  }

  // That covers every arrival counted before the window it read is over.
  lemma PromptCountIsExact(history: seq<Arrival>, a: Arrival, window: nat)
    requires window >= 1 && InOrder(history) && AppliedBy(history, a.appliedAt)
    requires Prompt(a, window)
    ensures Used(history, a, window) == Total(history, a.key, WindowOf(a.readAt, window), window) + 1
  {
    var k := WindowOf(a.readAt, window);
    CountIsExact(history, a, window);
    if First(history, a.key, k, window).Some? {
      FirstIsInWindow(history, a.key, k, window);
      EndOfWindow(a.appliedAt, window, k, First(history, a.key, k, window).value);
    }
  }

  // A straggler counted later than that starts a fresh count, and may pass a limit of one.
  lemma StragglerIsUndercounted(key: string, window: nat) returns (history: seq<Arrival>, a: Arrival)
    requires window >= 1
    ensures InOrder(history) && AppliedBy(history, a.appliedAt) && a.readAt <= a.appliedAt
    ensures Total(history, a.key, WindowOf(a.readAt, window), window) == 1 && Used(history, a, window) == 1
  {
    var w := window as real;
    var first := Arrival(key, 0.0, 0.0);
    a := Arrival(key, w - 0.5, w + 0.5);
    history := [first];
    WindowUnique(0.0, window, 0);
    WindowUnique(a.readAt, window, 0);
    assert history[..0] == [] && Counted(first, key, 0, window);
    assert Birth(history, key, 0, window) == Some((0.0, 1));
  }

  // What the server stores for a counter: nothing, or the count since its creation.
  ghost predicate Stored(
    store: map<(string, int), Entry>, history: seq<Arrival>, key: string, k: int, window: nat)
    requires window >= 1
  {
    var birth := Birth(history, key, k, window);
    if (key, k) in store
    then birth == Some((store[(key, k)].expiresAt - window as real, store[(key, k)].count))
    else birth.None?
  }

  // INCR answers an arrival with its count, and keeps what is stored for every counter.
  lemma IncrementIsFaithful(
    store: map<(string, int), Entry>, history: seq<Arrival>, a: Arrival, window: nat, key: string, k: int)
    requires window >= 1
    requires Stored(store, history, a.key, WindowOf(a.readAt, window), window)
    requires Stored(store, history, key, k, window)
    ensures var (after, used) := Incremented(store, a.key, WindowOf(a.readAt, window), a.appliedAt, window);
            used == Used(history, a, window) && Stored(after, history + [a], key, k, window)
  {
    assert (history + [a])[..|history|] == history;
  }

  class RedisRateLimiter {
    const limit: nat
    const window: nat
    var store: map<(string, int), Entry>
    ghost var history: seq<Arrival>

    ghost predicate Valid()
      reads this
    {
      && limit >= 1 && window >= 1
      && InOrder(history)
      && forall key, k :: Stored(store, history, key, k, window)
    }

    constructor (limit: nat, window: nat)
      requires Validate(limit, window).Success?
      ensures Valid() && history == [] && this.limit == limit && this.window == window
    {
      this.limit, this.window, store, history := limit, window, map[], [];
    }

    // `readAt` is what TIME answers, `appliedAt` when the server counts the request.
    method Check(key: string, readAt: real, appliedAt: real) returns (decision: Decision)
      requires Valid() && readAt <= appliedAt && AppliedBy(history, appliedAt)
      modifies this
      ensures Valid() && history == old(history) + [Arrival(key, readAt, appliedAt)]
      ensures decision == Decide(Used(old(history), Arrival(key, readAt, appliedAt), window), limit, window, readAt)
    {
      var k, elapsed := WindowNow(readAt);
      ghost var a := Arrival(key, readAt, appliedAt);
      var (after, used) := Incremented(store, key, k, appliedAt, window);
      forall other, j
        ensures used == Used(history, a, window) && Stored(after, history + [a], other, j, window)
      {
        IncrementIsFaithful(store, history, a, window, other, j);
      }
      assert Stored(after, history + [a], key, k, window);
      store := after;
      history := history + [a];
      if used > limit {
        return Decision(false, 0, Max(1, Ceil(window as real - elapsed)));
      }
      decision := Decision(true, limit - used, 0);
    }

    method WindowNow(now: real) returns (k: int, elapsed: real)
      requires window >= 1
      ensures k == WindowOf(now, window) && elapsed == Elapsed(now, window)
    {
      k := (now / window as real).Floor;
      elapsed := now - k as real * window as real;
    }
  }

  // Counted before the window it read is over.
  predicate Prompt(a: Arrival, window: nat)
    requires window >= 1
  {
    WindowOf(a.appliedAt, window) == WindowOf(a.readAt, window)
  }

  function Reading(a: Arrival): Request {
    Request(a.key, a.readAt)
  }

  // The requests as a counter would see them that knows their readings at once, in the order
  // Redis counts them.
  function Readings(history: seq<Arrival>): (requests: seq<Request>)
    ensures |requests| == |history|
    ensures forall i :: 0 <= i < |history| ==> requests[i] == Reading(history[i])
  {
    seq(|history|, i requires 0 <= i < |history| => Reading(history[i]))
  }

  lemma {:induction false} TotalOfReadings(history: seq<Arrival>, key: string, k: int, window: nat)
    requires window >= 1
    ensures Total(history, key, k, window) == CountIn(Readings(history), key, k, window)
  {
    if history != [] {
      var n := |history| - 1;
      TotalOfReadings(history[..n], key, k, window);
      assert Readings(history)[..n] == Readings(history[..n]);
    }
  }

  // A prompt request gets the verdict of the counter that never forgets, whatever the delays
  // of the others.
  lemma PromptIsVerdict(history: seq<Arrival>, a: Arrival, limit: nat, window: nat)
    requires window >= 1 && InOrder(history) && AppliedBy(history, a.appliedAt) && Prompt(a, window)
    ensures Decide(Used(history, a, window), limit, window, a.readAt) ==
            Verdict(Readings(history), Reading(a), limit, window)
  {
    TotalOfReadings(history, a.key, WindowOf(a.readAt, window), window);
    PromptCountIsExact(history, a, window);
  }

  predicate PassesAt(history: seq<Arrival>, i: nat, limit: nat, window: nat)
    requires window >= 1 && i < |history|
  {
    Decide(Used(history[..i], history[i], window), limit, window, history[i].readAt).allowed
  }

  // The requests of a key that Redis lets through with a reading in [from, from + window).
  function PassedSince(history: seq<Arrival>, key: string, from: real, limit: nat, window: nat): nat
    requires window >= 1
  {
    if history == [] then 0
    else
      var n := |history| - 1;
      PassedSince(history[..n], key, from, limit, window)
      + if history[n].key == key && from <= history[n].readAt < from + window as real
           && PassesAt(history, n, limit, window)
        then 1 else 0
  }

  lemma PassesAsAllowed(history: seq<Arrival>, i: nat, limit: nat, window: nat)
    requires window >= 1 && InOrder(history) && i < |history| && Prompt(history[i], window)
    ensures PassesAt(history, i, limit, window) == AllowedAt(Readings(history), i, limit, window)
  {
    PromptIsVerdict(history[..i], history[i], limit, window);
    assert Readings(history)[..i] == Readings(history[..i]);
  }

  lemma {:induction false} PassedAsAllowed(
    history: seq<Arrival>, key: string, from: real, limit: nat, window: nat)
    requires window >= 1 && InOrder(history)
    requires forall i :: 0 <= i < |history| ==> Prompt(history[i], window)
    ensures PassedSince(history, key, from, limit, window) ==
            AllowedSince(Readings(history), key, from, limit, window)
  {
    if history != [] {
      var n := |history| - 1;
      PassedAsAllowed(history[..n], key, from, limit, window);
      PassesAsAllowed(history, n, limit, window);
      assert Readings(history)[..n] == Readings(history[..n]);
    }
  }

  // The sliding bound holds for Redis too, when every request is prompt.
  lemma RedisSlidingBound(history: seq<Arrival>, key: string, from: real, limit: nat, window: nat)
    requires window >= 1 && InOrder(history)
    requires forall i :: 0 <= i < |history| ==> Prompt(history[i], window)
    ensures PassedSince(history, key, from, limit, window) <= 2 * limit
  {
    PassedAsAllowed(history, key, from, limit, window);
    SlidingBound(Readings(history), key, from, limit, window);
  }

  ghost predicate Together(history: seq<Arrival>, window: nat)
    requires window >= 1
  {
    && InOrder(history) && Nondecreasing(Readings(history))
    && forall i :: 0 <= i < |history| ==> Prompt(history[i], window)
  }

  // The two limiters answer every prompt request alike, when the local one is asked at the
  // readings and these do not go back.
  method SameDecisions(arrivals: seq<Arrival>, limit: nat, window: nat)
    returns (memory: seq<Decision>, redis: seq<Decision>)
    requires limit >= 1 && window >= 1 && Together(arrivals, window)
    ensures memory == redis && |memory| == |arrivals|
    ensures forall i :: 0 <= i < |arrivals| ==>
              memory[i] == Verdict(Readings(arrivals[..i]), Reading(arrivals[i]), limit, window)
  {
    memory, redis := [], [];
    var local := new InMemoryRateLimiter(limit, window);
    var shared := new RedisRateLimiter(limit, window);
    for i := 0 to |arrivals|
      invariant local.Valid() && local.history == Readings(arrivals[..i])
      invariant local.limit == limit && local.window == window
      invariant shared.Valid() && shared.history == arrivals[..i]
      invariant shared.limit == limit && shared.window == window
      invariant memory == redis && |memory| == i
      invariant forall j :: 0 <= j < i ==>
                  memory[j] == Verdict(Readings(arrivals[..j]), Reading(arrivals[j]), limit, window)
    {
      Before(arrivals, i, window);
      var mine, theirs := AskBoth(local, shared, arrivals[..i], arrivals[i]);
      memory, redis := memory + [mine], redis + [theirs];
    }
  }

  lemma Before(arrivals: seq<Arrival>, i: nat, window: nat)
    requires window >= 1 && Together(arrivals, window) && i < |arrivals|
    ensures InOrder(arrivals[..i]) && AppliedBy(arrivals[..i], arrivals[i].appliedAt)
    ensures NotBefore(Readings(arrivals[..i]), arrivals[i].readAt)
    ensures arrivals[..i + 1] == arrivals[..i] + [arrivals[i]]
  {
    forall j | 0 <= j < i
      ensures Readings(arrivals[..i])[j].at <= arrivals[i].readAt
    {
      assert Readings(arrivals)[j].at <= Readings(arrivals)[i].at;
    }
  }

  method AskBoth(
    local: InMemoryRateLimiter, shared: RedisRateLimiter, ghost earlier: seq<Arrival>, a: Arrival)
    returns (mine: Decision, theirs: Decision)
    requires local.Valid() && local.history == Readings(earlier) && NotBefore(Readings(earlier), a.readAt)
    requires shared.Valid() && shared.history == earlier
    requires AppliedBy(earlier, a.appliedAt) && a.readAt <= a.appliedAt
    requires shared.limit == local.limit && shared.window == local.window && Prompt(a, local.window)
    modifies local, shared
    ensures local.Valid() && local.history == Readings(earlier + [a])
    ensures shared.Valid() && shared.history == earlier + [a]
    ensures mine == theirs == Verdict(Readings(earlier), Reading(a), local.limit, local.window)
  {
    PromptIsVerdict(earlier, a, local.limit, local.window);
    assert Readings(earlier + [a]) == Readings(earlier) + [Reading(a)];
    mine := local.Check(a.key, a.readAt);
    theirs := shared.Check(a.key, a.readAt, a.appliedAt);
  }
}
