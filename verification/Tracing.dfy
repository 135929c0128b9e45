// Spans and their nesting (backend/app/observability/tracer.py). Identifiers are drawn from a
// counter, which stands for the source's random ones never repeating; durations and attributes
// are not part of a span here.
module Tracing {
  import opened Wrappers

  // An open span, and the record made of it when it closes. The status is ERROR exactly when
  // an error category is set: one method sets both.
  datatype Span = Span(traceId: nat, spanId: nat, parent: Option<nat>, name: string, error: Option<string>)

  // What a block can raise: an `Exception`, or a `BaseException` that `except Exception` lets
  // through, such as a cancellation.
  datatype Raised = Ordinary(typeName: string) | Base(typeName: string)

  // -- what one task does ---------------------------------------------------

  datatype Work =
    | Nothing
    // `record_error` on the span `up` levels out from the innermost one
    | Mark(up: nat, category: string)
    | Raise(error: Raised)
    | Then(first: Work, second: Work)
    | Catch(body: Work, handler: Work, catchesBase: bool)
    | Finally(body: Work, cleanup: Work)
    | WithSpan(name: string, body: Work)

  datatype Event = Opens(name: string) | Marks(up: nat, category: string) | Closes(exit: Option<Raised>)

  predicate Catches(catchesBase: bool, outcome: Option<Raised>) {
    outcome.Some? && (catchesBase || outcome.value.Ordinary?)
  }

  // The order in which Python enters and leaves the blocks of a piece of work, and what
  // finally escapes it.
  function Control(work: Work): (seq<Event>, Option<Raised>) {
    match work
    case Nothing => ([], None)
    case Mark(up, category) => ([Marks(up, category)], None)
    case Raise(error) => ([], Some(error))
    case Then(first, second) =>
      var a := Control(first);
      if a.1.Some? then a else
        var b := Control(second);
        (a.0 + b.0, b.1)
    case Catch(body, handler, catchesBase) =>
      var a := Control(body);
      if !Catches(catchesBase, a.1) then a else
        var b := Control(handler);
        (a.0 + b.0, b.1)
    case Finally(body, cleanup) =>
      var a := Control(body);
      var b := Control(cleanup);
      (a.0 + b.0, if b.1.Some? then b.1 else a.1)
    case WithSpan(name, body) =>
      var a := Control(body);
      ([Opens(name)] + a.0 + [Closes(a.1)], a.1)
  }

  // Nothing runs after a raise until it is caught.
  lemma RaisingSkips(a: Work, b: Work)
    ensures if Control(a).1.Some? then Control(Then(a, b)) == Control(a)
            else Control(Then(a, b)) == (Control(a).0 + Control(b).0, Control(b).1)
  {
  }

  // A cleanup runs however its body ends, as if it stood both after the body and in a handler
  // that raises again.
  lemma CleanupAlwaysRuns(body: Work, cleanup: Work)
    ensures Control(body).1.None? ==> Control(Finally(body, cleanup)) == Control(Then(body, cleanup))
    ensures Control(body).1.Some? ==>
              Control(Finally(body, cleanup)) == Control(Catch(body, Then(cleanup, Raise(Control(body).1.value)), true))
  {
    if Control(body).1.Some? {
      var again := Raise(Control(body).1.value);
      RaisingSkips(cleanup, again);
      assert Control(cleanup).0 + Control(again).0 == Control(cleanup).0;
    }
  }

  // A handler runs exactly for what it catches: only one for everything catches what is no
  // `Exception`.
  lemma HandlersCatch(body: Work, handler: Work, catchesBase: bool)
    ensures var (log, escapes) := Control(body);
            if escapes.None? || (escapes.value.Base? && !catchesBase)
            then Control(Catch(body, handler, catchesBase)) == (log, escapes)
            else Control(Catch(body, handler, catchesBase)) == (log + Control(handler).0, Control(handler).1)
  {
  }

  // -- what the tracer keeps ------------------------------------------------

  datatype State = State(stack: seq<Span>, recorded: seq<Span>, next: nat)

  const INITIAL := State([], [], 0)

  function Innermost(stack: seq<Span>): Option<nat> {
    if stack == [] then None else Some(stack[|stack| - 1].spanId)
  }

  function NewSpan(s: State, name: string): Span {
    if s.stack == [] then Span(s.next, s.next + 1, None, name, None)
    else Span(s.stack[|s.stack| - 1].traceId, s.next, Innermost(s.stack), name, None)
  }

  function Closed(span: Span, exit: Option<Raised>): Span {
    if exit.Some? && exit.value.Ordinary? then span.(error := Some(exit.value.typeName)) else span
  }

  function After(s: State, e: Event): State {
    match e
    case Opens(name) =>
      var span := NewSpan(s, name);
      s.(stack := s.stack + [span], next := span.spanId + 1)
    case Marks(up, category) =>
      if up >= |s.stack| then s else
        var at := |s.stack| - 1 - up;
        s.(stack := s.stack[at := s.stack[at].(error := Some(category))])
    case Closes(exit) =>
      if s.stack == [] then s else
        var last := |s.stack| - 1;
        s.(stack := s.stack[..last], recorded := s.recorded + [Closed(s.stack[last], exit)])
  }

  function Replay(s: State, log: seq<Event>): State {
    if log == [] then s else After(Replay(s, log[..|log| - 1]), log[|log| - 1])
  }

  lemma {:induction false} ReplayAppend(s: State, a: seq<Event>, b: seq<Event>)
    ensures Replay(s, a + b) == Replay(Replay(s, a), b)
  {
    if b == [] {
      assert a + b == a;
    } else {
      assert (a + b)[..|a + b| - 1] == a + b[..|b| - 1];
      ReplayAppend(s, a, b[..|b| - 1]);
    }
  }

  // -- the current span is restored -----------------------------------------

  // The same spans open, whatever was marked on them meanwhile.
  ghost predicate SameOpen(a: seq<Span>, b: seq<Span>) {
    |a| == |b| && forall i :: 0 <= i < |a| ==> b[i] == a[i].(error := b[i].error)
  }

  predicate Unmarked(log: seq<Event>) {
    forall i :: 0 <= i < |log| ==> !log[i].Marks?
  }

  ghost predicate Restores(s: State, log: seq<Event>) {
    var t := Replay(s, log);
    && SameOpen(s.stack, t.stack)
    && s.recorded <= t.recorded
    && (Unmarked(log) ==> t.stack == s.stack)
  }

  lemma RestoresInSequence(s: State, a: seq<Event>, b: seq<Event>)
    requires Restores(s, a) && Restores(Replay(s, a), b)
    ensures Restores(s, a + b)
  {
    ReplayAppend(s, a, b);
    if Unmarked(a + b) {
      assert forall i :: 0 <= i < |a| ==> a[i] == (a + b)[i];
      assert forall i :: 0 <= i < |b| ==> b[i] == (a + b)[|a| + i];
    }
  }

  // A span of this name opened in this state: under the innermost open span and in its trace,
  // or the root of a new trace; its identifiers are drawn below `next`.
  ghost predicate Starts(s: State, next: nat, name: string, span: Span) {
    && span.name == name && s.next <= span.spanId < next
    && if s.stack == [] then span.parent == None && s.next <= span.traceId < next
       else
         var top := s.stack[|s.stack| - 1];
         span.parent == Some(top.spanId) && span.traceId == top.traceId
  }

  // Opening puts such a span on top and changes nothing else.
  lemma OpeningStarts(s: State, name: string)
    ensures var t := After(s, Opens(name));
            && |t.stack| == |s.stack| + 1 && t.stack[..|s.stack|] == s.stack && t.recorded == s.recorded
            && Starts(s, t.next, name, t.stack[|s.stack|]) && t.stack[|s.stack|].error == None
  {
  }

  // What becomes of a span whose block ran `inside` and ended with `exit`; `log` is all of it.
  ghost predicate RecordsOwn(
    s: State, name: string, inside: seq<Event>, log: seq<Event>, exit: Option<Raised>)
  {
    var before, t := Replay(After(s, Opens(name)), inside), Replay(s, log);
    && |before.recorded| < |t.recorded|
    && t.recorded[..|before.recorded|] == before.recorded
    && var own := t.recorded[|before.recorded|];
       && t.recorded == before.recorded + [own]
       && Starts(s, After(s, Opens(name)).next, name, own)
       && (exit.Some? && exit.value.Ordinary? ==> own.error == Some(exit.value.typeName))
       && (!(exit.Some? && exit.value.Ordinary?) && Unmarked(inside) ==> own.error == None)
  }

  lemma ReplayOfSpan(s: State, name: string, inside: seq<Event>, exit: Option<Raised>)
    ensures Replay(s, [Opens(name)] + inside + [Closes(exit)]) ==
            After(Replay(After(s, Opens(name)), inside), Closes(exit))
  {
    var log := [Opens(name)] + inside + [Closes(exit)];
    assert [Opens(name)][..0] == [];
    assert Replay(s, [Opens(name)]) == After(s, Opens(name));
    ReplayAppend(s, [Opens(name)], inside);
    assert log[..|log| - 1] == [Opens(name)] + inside;
  }

  lemma UnmarkedInside(name: string, inside: seq<Event>, exit: Option<Raised>)
    requires Unmarked([Opens(name)] + inside + [Closes(exit)])
    ensures Unmarked(inside)
  {
    var log := [Opens(name)] + inside + [Closes(exit)];
    assert forall i :: 0 <= i < |inside| ==> inside[i] == log[i + 1];
  }

  lemma SpanRestores(s: State, name: string, inside: seq<Event>, exit: Option<Raised>)
    requires Restores(After(s, Opens(name)), inside)
    ensures Restores(s, [Opens(name)] + inside + [Closes(exit)])
  {
    ReplayOfSpan(s, name, inside, exit);
    OpeningStarts(s, name);
    if Unmarked([Opens(name)] + inside + [Closes(exit)]) {
      UnmarkedInside(name, inside, exit);
    }
  }

  lemma SpanRecordsOwn(s: State, name: string, inside: seq<Event>, exit: Option<Raised>)
    requires Restores(After(s, Opens(name)), inside)
    ensures RecordsOwn(s, name, inside, [Opens(name)] + inside + [Closes(exit)], exit)
  {
    ReplayOfSpan(s, name, inside, exit);
    OpeningStarts(s, name);
  }

  // However a piece of work ends, and wherever exceptions were caught inside it, the spans
  // open afterwards are those open before, and what was already recorded stays.
  lemma {:induction false} Restored(s: State, work: Work)
    ensures Restores(s, Control(work).0)
    decreases work
  {
    match work
    case Nothing =>
    case Raise(error) =>
    case Mark(up, category) =>
      assert Control(work).0[..0] == [];
      assert Control(work).0[0].Marks?;
    case Then(first, second) =>
      Restored(s, first);
      Restored(Replay(s, Control(first).0), second);
      RestoresInSequence(s, Control(first).0, Control(second).0);
    case Catch(body, handler, catchesBase) =>
      Restored(s, body);
      Restored(Replay(s, Control(body).0), handler);
      RestoresInSequence(s, Control(body).0, Control(handler).0);
    case Finally(body, cleanup) =>
      Restored(s, body);
      Restored(Replay(s, Control(body).0), cleanup);
      RestoresInSequence(s, Control(body).0, Control(cleanup).0);
    case WithSpan(name, body) =>
      Restored(After(s, Opens(name)), body);
      SpanRestores(s, name, Control(body).0, Control(body).1);
  }

  // A span is recorded when its block ends, after everything inside it, under the identity it
  // was opened with; an `Exception` leaving the block is its error, and nothing else is unless
  // the work marked it.
  lemma SpanIsRecorded(s: State, name: string, body: Work)
    ensures var (log, exit) := Control(WithSpan(name, body));
            RecordsOwn(s, name, Control(body).0, log, exit) && exit == Control(body).1
    ensures s.recorded <= Replay(After(s, Opens(name)), Control(body).0).recorded
  {
    Restored(After(s, Opens(name)), body);
    SpanRecordsOwn(s, name, Control(body).0, Control(body).1);
  }

  // -- every run ------------------------------------------------------------

  ghost predicate Distinct(spans: seq<Span>) {
    forall i, j :: 0 <= i < j < |spans| ==> spans[i].spanId != spans[j].spanId
  }

  // `spans[k]` has its parent further on in the list, in the same trace.
  ghost predicate HasParentAfter(spans: seq<Span>, k: nat)
    requires k < |spans|
  {
    exists j :: k < j < |spans| && IsParent(spans[j], spans[k])
  }

  predicate IsParent(parent: Span, child: Span) {
    child.parent == Some(parent.spanId) && child.traceId == parent.traceId
  }

  // What was recorded, then what is open from the innermost span outwards. Once every block
  // has ended this is the record itself.
  ghost function All(s: State): seq<Span> {
    s.recorded + Reversed(s.stack)
  }

  ghost function Reversed(stack: seq<Span>): seq<Span> {
    if stack == [] then [] else [stack[|stack| - 1]] + Reversed(stack[..|stack| - 1])
  }

  // The spans form trees: every parent comes after its children and shares their trace, and
  // no two roots share one.
  ghost predicate Forest(all: seq<Span>) {
    && Distinct(all)
    && (forall k :: 0 <= k < |all| && all[k].parent.Some? ==> HasParentAfter(all, k))
    && (forall j, k :: 0 <= j < k < |all| && all[j].parent.None? && all[k].parent.None? ==>
          all[j].traceId != all[k].traceId)
  }

  ghost predicate Inv(s: State) {
    && Forest(All(s))
    && (forall span :: span in All(s) ==> span.spanId < s.next && span.traceId < s.next)
  }

  // Identity, apart from errors, is all `Inv` speaks of.
  lemma InvOfSame(a: State, b: State)
    requires Inv(a) && SameOpen(All(a), All(b)) && b.next == a.next
    ensures Inv(b)
  {
    var x, y := All(a), All(b);
    forall k | 0 <= k < |y| && y[k].parent.Some?
      ensures HasParentAfter(y, k)
    {
      assert HasParentAfter(x, k);
      var j :| k < j < |x| && IsParent(x[j], x[k]);
      assert IsParent(y[j], y[k]);
    }
  }

  lemma {:induction false} ReversedSame(a: seq<Span>, b: seq<Span>)
    requires SameOpen(a, b)
    ensures SameOpen(Reversed(a), Reversed(b)) && |Reversed(a)| == |a|
  {
    if a != [] {
      ReversedSame(a[..|a| - 1], b[..|b| - 1]);
    }
  }

  lemma AllAfterOpen(s: State, name: string)
    ensures All(After(s, Opens(name))) == s.recorded + [NewSpan(s, name)] + Reversed(s.stack)
    ensures NewSpan(s, name).parent.Some? ==>
              s.stack != [] && Reversed(s.stack) != [] && IsParent(Reversed(s.stack)[0], NewSpan(s, name))
  {
    var t := After(s, Opens(name));
    assert t.stack[..|t.stack| - 1] == s.stack;
  }

  lemma ParentAfterInsert(a: seq<Span>, span: Span, b: seq<Span>, k: nat)
    requires k < |a + b| && HasParentAfter(a + b, k)
    ensures HasParentAfter(a + [span] + b, if k < |a| then k else k + 1)
  {
    var x, y, n := a + b, a + [span] + b, |a|;
    var j :| k < j < |x| && IsParent(x[j], x[k]);
    assert y[if j < n then j else j + 1] == x[j] && y[if k < n then k else k + 1] == x[k];
  }

  lemma ParentsAfterInsert(a: seq<Span>, span: Span, b: seq<Span>)
    requires Forest(a + b)
    requires span.parent.Some? ==> b != [] && IsParent(b[0], span)
    ensures var y := a + [span] + b;
            forall k :: 0 <= k < |y| && y[k].parent.Some? ==> HasParentAfter(y, k)
  {
    var y, n := a + [span] + b, |a|;
    forall k | 0 <= k < |y| && y[k].parent.Some?
      ensures HasParentAfter(y, k)
    {
      if k == n {
        assert y[n + 1] == b[0];
      } else {
        assert (a + b)[if k < n then k else k - 1] == y[k];
        ParentAfterInsert(a, span, b, if k < n then k else k - 1);
      }
    }
  }

  // Neither the same span nor two roots of one trace.
  predicate Apart(p: Span, q: Span) {
    p.spanId != q.spanId && (p.parent.None? && q.parent.None? ==> p.traceId != q.traceId)
  }

  lemma ApartAfterInsert(a: seq<Span>, span: Span, b: seq<Span>, j: nat, k: nat)
    requires Forest(a + b) && j < k < |a| + 1 + |b|
    requires forall other :: other in a + b ==> Apart(other, span)
    ensures Apart((a + [span] + b)[j], (a + [span] + b)[k])
  {
    var x, n := a + b, |a|;
    if j == n {
      assert x[k - 1] in a + b;
    } else if k == n {
      assert x[j] in a + b;
    } else {
      assert (a + [span] + b)[j] == x[if j < n then j else j - 1];
      assert (a + [span] + b)[k] == x[if k < n then k else k - 1];
    }
  }

  lemma ForestAfterInsert(a: seq<Span>, span: Span, b: seq<Span>)
    requires Forest(a + b)
    requires span.parent.Some? ==> b != [] && IsParent(b[0], span)
    requires forall other :: other in a + b ==> Apart(other, span)
    ensures Forest(a + [span] + b)
  {
    var y := a + [span] + b;
    ParentsAfterInsert(a, span, b);
    forall j, k | 0 <= j < k < |y|
      ensures Apart(y[j], y[k])
    {
      ApartAfterInsert(a, span, b, j, k);
    }
  }

  lemma OpenKeepsInv(s: State, name: string)
    requires Inv(s)
    ensures Inv(After(s, Opens(name)))
  {
    AllAfterOpen(s, name);
    var span := NewSpan(s, name);
    assert s.stack != [] ==> Reversed(s.stack)[0] in All(s);
    ForestAfterInsert(s.recorded, span, Reversed(s.stack));
    forall other | other in All(After(s, Opens(name)))
      ensures other in All(s) || other == span
    {
    }
  }

  lemma MarkKeepsAll(s: State, up: nat, category: string)
    ensures SameOpen(All(s), All(After(s, Marks(up, category))))
  {
    ReversedSame(s.stack, After(s, Marks(up, category)).stack);
  }

  lemma CloseKeepsAll(s: State, exit: Option<Raised>)
    ensures SameOpen(All(s), All(After(s, Closes(exit))))
  {
  }

  lemma {:induction false} EveryRun(log: seq<Event>)
    ensures Inv(Replay(INITIAL, log))
  {
    if log != [] {
      var s, e := Replay(INITIAL, log[..|log| - 1]), log[|log| - 1];
      EveryRun(log[..|log| - 1]);
      match e
      case Opens(name) => OpenKeepsInv(s, name);
      case Marks(up, category) =>
        MarkKeepsAll(s, up, category);
        InvOfSame(s, After(s, e));
      case Closes(exit) =>
        CloseKeepsAll(s, exit);
        InvOfSame(s, After(s, e));
    }
  }

  // How many spans opened after `log[i]` are still open at the end, while its own is.
  function Depth(log: seq<Event>, i: nat): Option<nat>
    requires i < |log|
    decreases |log|
  {
    if |log| == i + 1 then Some(0)
    else
      var before := Depth(log[..|log| - 1], i);
      match log[|log| - 1]
      case Opens(_) => if before.Some? then Some(before.value + 1) else None
      case Marks(_, _) => before
      case Closes(_) => if before.Some? && before.value > 0 then Some(before.value - 1) else None
  }

  // What the events after `log[i]` make of its error: the last mark aimed at that level while
  // it is open, unless an `Exception` leaves its block.
  function ErrorAt(log: seq<Event>, i: nat): Option<string>
    requires i < |log|
    decreases |log|
  {
    if |log| == i + 1 then None
    else
      var before := log[..|log| - 1];
      match log[|log| - 1]
      case Marks(up, category) => if Depth(before, i) == Some(up) then Some(category) else ErrorAt(before, i)
      case Closes(exit) =>
        if Depth(before, i) == Some(0) && exit.Some? && exit.value.Ordinary? then Some(exit.value.typeName)
        else ErrorAt(before, i)
      case Opens(_) => ErrorAt(before, i)
  }

  // The span is the one that `log[i]` opened, with the error of what followed.
  ghost predicate StartedAt(log: seq<Event>, i: nat, span: Span)
    requires i < |log|
  {
    && log[i].Opens?
    && Starts(Replay(INITIAL, log[..i]), Replay(INITIAL, log[..i + 1]).next, log[i].name, span)
    && span.error == ErrorAt(log, i)
  }

  ghost predicate IsListed(all: seq<Span>, log: seq<Event>, i: nat)
    requires i < |log|
  {
    exists k :: 0 <= k < |all| && StartedAt(log, i, all[k])
  }

  ghost predicate HasStart(log: seq<Event>, span: Span) {
    exists i :: 0 <= i < |log| && StartedAt(log, i, span)
  }

  ghost predicate Once(log: seq<Event>, all: seq<Span>) {
    && (forall i :: 0 <= i < |log| && log[i].Opens? ==> IsListed(all, log, i))
    && (forall span :: span in all ==> HasStart(log, span))
  }

  // An open span stands in the stack as deep as its log says, and a closed one is recorded.
  ghost predicate Located(log: seq<Event>, s: State, i: nat)
    requires i < |log|
  {
    match Depth(log, i)
    case Some(d) => d < |s.stack| && StartedAt(log, i, s.stack[|s.stack| - 1 - d])
    case None => IsListed(s.recorded, log, i)
  }

  ghost predicate OpenedBy(log: seq<Event>, s: State, k: nat, i: nat)
    requires k < |s.stack| && i < |log|
  {
    Depth(log, i) == Some(|s.stack| - 1 - k) && StartedAt(log, i, s.stack[k])
  }

  ghost predicate StackTold(log: seq<Event>, s: State, k: nat)
    requires k < |s.stack|
  {
    exists i :: 0 <= i < |log| && OpenedBy(log, s, k, i)
  }

  ghost predicate RecordedBy(log: seq<Event>, span: Span, i: nat)
    requires i < |log|
  {
    Depth(log, i) == None && StartedAt(log, i, span)
  }

  ghost predicate RecordTold(log: seq<Event>, span: Span) {
    exists i :: 0 <= i < |log| && RecordedBy(log, span, i)
  }

  ghost predicate Tells(log: seq<Event>, s: State) {
    && (forall i :: 0 <= i < |log| && log[i].Opens? ==> Located(log, s, i))
    && (forall k :: 0 <= k < |s.stack| ==> StackTold(log, s, k))
    && (forall k :: 0 <= k < |s.recorded| ==> RecordTold(log, s.recorded[k]))
  }

  lemma LogGrows(log: seq<Event>, e: Event, i: nat)
    requires i < |log|
    ensures (log + [e])[..|log|] == log && (log + [e])[..i] == log[..i] && (log + [e])[..i + 1] == log[..i + 1]
  {
  }

  // A span of the shorter log is one of the longer, once its error is brought up to date.
  lemma Carried(log: seq<Event>, e: Event, i: nat, was: Span, now: Span)
    requires i < |log| && StartedAt(log, i, was)
    requires now == was.(error := ErrorAt(log + [e], i))
    ensures StartedAt(log + [e], i, now)
  {
    LogGrows(log, e, i);
  }

  lemma ReplaySnoc(log: seq<Event>, e: Event)
    ensures (log + [e])[..|log|] == log && (log + [e])[..|log| + 1] == log + [e]
    ensures Replay(INITIAL, log + [e]) == After(Replay(INITIAL, log), e)
  {
    assert (log + [e])[..|log + [e]| - 1] == log;
  }

  lemma TopStarts(log: seq<Event>, e: Event, s: State)
    requires s == Replay(INITIAL, log) && e.Opens?
    ensures var t := After(s, e);
            |t.stack| == |s.stack| + 1 && StartedAt(log + [e], |log|, t.stack[|s.stack|])
  {
    OpeningStarts(s, e.name);
    ReplaySnoc(log, e);
  }

  lemma OpensAtEnd(log: seq<Event>, e: Event, s: State)
    requires s == Replay(INITIAL, log) && e.Opens?
    ensures |After(s, e).stack| == |s.stack| + 1
    ensures OpenedBy(log + [e], After(s, e), |s.stack|, |log|)
  {
    TopStarts(log, e, s);
  }

  // How an event changes an open span of level d, and where it is afterwards.
  lemma OpenMoves(log: seq<Event>, e: Event, s: State, i: nat, d: nat)
    requires i < |log| && Depth(log, i) == Some(d) && d < |s.stack|
    requires s.stack[|s.stack| - 1 - d].error == ErrorAt(log, i)
    ensures var t := After(s, e);
            var now := s.stack[|s.stack| - 1 - d].(error := ErrorAt(log + [e], i));
            match Depth(log + [e], i)
            case Some(level) =>
              level < |t.stack| && |t.stack| - 1 - level == |s.stack| - 1 - d && t.stack[|s.stack| - 1 - d] == now
            case None => d == 0 && |t.stack| == |s.stack| - 1 && t.recorded == s.recorded + [now]
  {
    assert (log + [e])[..|log + [e]| - 1] == log;
  }

  lemma OpenCarried(log: seq<Event>, e: Event, s: State, i: nat, d: nat)
    requires i < |log| && Depth(log, i) == Some(d) && d < |s.stack|
    requires StartedAt(log, i, s.stack[|s.stack| - 1 - d])
    ensures var t := After(s, e);
            match Depth(log + [e], i)
            case Some(level) =>
              && level < |t.stack| && |t.stack| - 1 - level == |s.stack| - 1 - d
              && StartedAt(log + [e], i, t.stack[|s.stack| - 1 - d])
            case None => d == 0 && |t.stack| == |s.stack| - 1 && |t.recorded| == |s.recorded| + 1
                         && StartedAt(log + [e], i, t.recorded[|s.recorded|])
  {
    var was := s.stack[|s.stack| - 1 - d];
    OpenMoves(log, e, s, i, d);
    Carried(log, e, i, was, was.(error := ErrorAt(log + [e], i)));
  }

  lemma ClosedStays(log: seq<Event>, e: Event, i: nat)
    requires i < |log| && Depth(log, i) == None
    ensures Depth(log + [e], i) == None && ErrorAt(log + [e], i) == ErrorAt(log, i)
  {
    assert (log + [e])[..|log + [e]| - 1] == log;
  }

  lemma RecordCarried(log: seq<Event>, e: Event, i: nat, span: Span)
    requires i < |log| && RecordedBy(log, span, i)
    ensures RecordedBy(log + [e], span, i)
  {
    ClosedStays(log, e, i);
    Carried(log, e, i, span, span);
  }

  lemma RecordsStay(s: State, e: Event)
    ensures var t := After(s, e);
            && |s.recorded| <= |t.recorded| && forall k :: 0 <= k < |s.recorded| ==> t.recorded[k] == s.recorded[k]
  {
  }

  lemma ListedStays(log: seq<Event>, e: Event, s: State, i: nat)
    requires i < |log| && Depth(log, i) == None && IsListed(s.recorded, log, i)
    ensures IsListed(After(s, e).recorded, log + [e], i)
  {
    var k :| 0 <= k < |s.recorded| && StartedAt(log, i, s.recorded[k]);
    RecordCarried(log, e, i, s.recorded[k]);
    RecordsStay(s, e);
    assert After(s, e).recorded[k] == s.recorded[k];
  }

  lemma LocatedAfter(log: seq<Event>, e: Event, s: State, i: nat)
    requires i < |log| && Located(log, s, i)
    ensures Located(log + [e], After(s, e), i)
  {
    if Depth(log, i).Some? {
      OpenCarried(log, e, s, i, Depth(log, i).value);
    } else {
      ListedStays(log, e, s, i);
      ClosedStays(log, e, i);
    }
  }

  lemma RecordToldAfter(log: seq<Event>, e: Event, span: Span)
    requires RecordTold(log, span)
    ensures RecordTold(log + [e], span)
  {
    var i :| 0 <= i < |log| && RecordedBy(log, span, i);
    RecordCarried(log, e, i, span);
  }

  lemma StackCarried(log: seq<Event>, e: Event, s: State, k: nat, i: nat)
    requires k < |s.stack| && i < |log| && OpenedBy(log, s, k, i)
    ensures var t := After(s, e);
            if k < |t.stack| then OpenedBy(log + [e], t, k, i)
            else |t.recorded| == |s.recorded| + 1 && RecordedBy(log + [e], t.recorded[|s.recorded|], i)
  {
    OpenCarried(log, e, s, i, |s.stack| - 1 - k);
  }

  lemma StackToldAfter(log: seq<Event>, e: Event, s: State, k: nat)
    requires k < |s.stack| && StackTold(log, s, k)
    ensures var t := After(s, e);
            if k < |t.stack| then StackTold(log + [e], t, k)
            else |t.recorded| == |s.recorded| + 1 && RecordTold(log + [e], t.recorded[|s.recorded|])
  {
    var i :| 0 <= i < |log| && OpenedBy(log, s, k, i);
    StackCarried(log, e, s, k, i);
  }

  lemma OnlyOpensGrow(s: State, e: Event)
    ensures |After(s, e).stack| <= |s.stack| + if e.Opens? then 1 else 0
  {
  }

  lemma EachLocatedAfter(log: seq<Event>, e: Event, s: State)
    requires s == Replay(INITIAL, log) && Tells(log, s)
    ensures forall i :: 0 <= i < |log + [e]| && (log + [e])[i].Opens? ==> Located(log + [e], After(s, e), i)
  {
    var longer := log + [e];
    forall i | 0 <= i < |longer| && longer[i].Opens?
      ensures Located(longer, After(s, e), i)
    {
      if i < |log| {
        assert log[i].Opens?;
        LocatedAfter(log, e, s, i);
      } else {
        OpensAtEnd(log, e, s);
      }
    }
  }

  lemma StackToldThen(log: seq<Event>, e: Event, s: State, t: State, k: nat) returns (i: nat)
    requires s == Replay(INITIAL, log) && t == After(s, e) && k < |t.stack|
    requires k < |s.stack| ==> StackTold(log, s, k)
    ensures i < |log + [e]| && OpenedBy(log + [e], t, k, i)
  {
    OnlyOpensGrow(s, e);
    if k < |s.stack| {
      i :| 0 <= i < |log| && OpenedBy(log, s, k, i);
      StackCarried(log, e, s, k, i);
    } else {
      i := |log|;
      OpensAtEnd(log, e, s);
    }
  }

  lemma EachStackTold(log: seq<Event>, e: Event, s: State)
    requires s == Replay(INITIAL, log) && forall k :: 0 <= k < |s.stack| ==> StackTold(log, s, k)
    ensures forall k :: 0 <= k < |After(s, e).stack| ==> StackTold(log + [e], After(s, e), k)
  {
    var t := After(s, e);
    forall k | 0 <= k < |t.stack|
      ensures StackTold(log + [e], t, k)
    {
      var i := StackToldThen(log, e, s, t, k);
    }
  }

  lemma EachRecordTold(log: seq<Event>, e: Event, s: State)
    requires Tells(log, s)
    ensures forall k :: 0 <= k < |After(s, e).recorded| ==> RecordTold(log + [e], After(s, e).recorded[k])
  {
    var t := After(s, e);
    forall k | 0 <= k < |t.recorded|
      ensures RecordTold(log + [e], t.recorded[k])
    {
      if k < |s.recorded| {
        RecordsStay(s, e);
        RecordToldAfter(log, e, s.recorded[k]);
      } else {
        StackToldAfter(log, e, s, |s.stack| - 1);
      }
    }
  }

  lemma TellsAfter(log: seq<Event>, e: Event, s: State)
    requires s == Replay(INITIAL, log) && Tells(log, s)
    ensures Tells(log + [e], After(s, e))
  {
    EachLocatedAfter(log, e, s);
    EachStackTold(log, e, s);
    EachRecordTold(log, e, s);
  }

  lemma {:induction false} LogTellsState(log: seq<Event>)
    ensures Tells(log, Replay(INITIAL, log))
  {
    if log != [] {
      LogTellsState(log[..|log| - 1]);
      TellsAfter(log[..|log| - 1], log[|log| - 1], Replay(INITIAL, log[..|log| - 1]));
      assert log == log[..|log| - 1] + [log[|log| - 1]];
    }
  }

  lemma {:induction false} ReversedHas(stack: seq<Span>, span: Span)
    ensures span in Reversed(stack) <==> span in stack
  {
    if stack != [] {
      ReversedHas(stack[..|stack| - 1], span);
      assert stack == stack[..|stack| - 1] + [stack[|stack| - 1]];
    }
  }

  // Nothing is lost and nothing is made up: the spans recorded or still open are exactly those
  // the run opened, each under the span that was innermost then and in its trace, with the
  // error of the last event that was aimed at it.
  lemma EachSpanOnce(log: seq<Event>)
    ensures Once(log, All(Replay(INITIAL, log)))
  {
    var s := Replay(INITIAL, log);
    LogTellsState(log);
    forall i | 0 <= i < |log| && log[i].Opens?
      ensures IsListed(All(s), log, i)
    {
      ListedInAll(log, s, i);
    }
    forall span | span in All(s)
      ensures HasStart(log, span)
    {
      StartInAll(log, s, span);
    }
  }

  lemma ListedInAll(log: seq<Event>, s: State, i: nat)
    requires i < |log| && Located(log, s, i)
    ensures IsListed(All(s), log, i)
  {
    match Depth(log, i)
    case Some(d) =>
      var span := s.stack[|s.stack| - 1 - d];
      ReversedHas(s.stack, span);
      var k :| 0 <= k < |Reversed(s.stack)| && Reversed(s.stack)[k] == span;
      assert All(s)[|s.recorded| + k] == span;
    case None =>
      var k :| 0 <= k < |s.recorded| && StartedAt(log, i, s.recorded[k]);
      assert All(s)[k] == s.recorded[k];
  }

  lemma StartInAll(log: seq<Event>, s: State, span: Span)
    requires Tells(log, s) && span in All(s)
    ensures HasStart(log, span)
  {
    if span in s.recorded {
      var k :| 0 <= k < |s.recorded| && s.recorded[k] == span;
      var i :| 0 <= i < |log| && RecordedBy(log, s.recorded[k], i);
    } else {
      ReversedHas(s.stack, span);
      var k :| 0 <= k < |s.stack| && s.stack[k] == span;
      assert StackTold(log, s, k);
      var i :| 0 <= i < |log| && OpenedBy(log, s, k, i);
    }
  }

  lemma {:induction false} NextGrows(log: seq<Event>, n: nat)
    requires n <= |log|
    ensures Replay(INITIAL, log[..n]).next <= Replay(INITIAL, log).next
    decreases |log|
  {
    if n < |log| {
      NextGrows(log[..|log| - 1], n);
      assert log[..|log| - 1][..n] == log[..n];
    } else {
      assert log[..n] == log;
    }
  }

  // Two openings never share a span.
  lemma StartsAreApart(log: seq<Event>, i: nat, j: nat, a: Span, b: Span)
    requires i < j < |log| && StartedAt(log, i, a) && StartedAt(log, j, b)
    ensures a.spanId < b.spanId
  {
    NextGrows(log[..j], i + 1);
    assert log[..j][..i + 1] == log[..i + 1];
  }

  // -- the shape of what is recorded ----------------------------------------

  // Where the chain of parents that starts at `spans[k]` ends.
  ghost function Root(spans: seq<Span>, k: nat): (r: nat)
    requires k < |spans| && Forest(spans)
    ensures k <= r < |spans| && spans[r].parent.None? && spans[r].traceId == spans[k].traceId
    decreases |spans| - k
  {
    if spans[k].parent.None? then k
    else
      assert HasParentAfter(spans, k);
      var j :| k < j < |spans| && IsParent(spans[j], spans[k]);
      Root(spans, j)
  }

  // One trace identifier per tree, and one tree per trace identifier.
  lemma TracesAreTrees(spans: seq<Span>, i: nat, j: nat)
    requires Forest(spans) && i < |spans| && j < |spans|
    ensures spans[i].traceId == spans[j].traceId <==> Root(spans, i) == Root(spans, j)
  {
  }

  // `path` climbs from a span to one of its ancestors, parent by parent.
  ghost predicate Climbs(spans: seq<Span>, path: seq<nat>) {
    && |path| >= 2
    && (forall i :: 0 <= i < |path| ==> path[i] < |spans|)
    && (forall i :: 0 < i < |path| ==> spans[path[i - 1]].parent == Some(spans[path[i]].spanId))
  }

  lemma {:induction false} DescendantsComeFirst(spans: seq<Span>, path: seq<nat>)
    requires Forest(spans) && Climbs(spans, path)
    ensures path[0] < path[|path| - 1]
  {
    assert spans[path[1 - 1]].parent == Some(spans[path[1]].spanId);
    assert HasParentAfter(spans, path[0]);
    var j :| path[0] < j < |spans| && IsParent(spans[j], spans[path[0]]);
    assert j == path[1];
    if |path| > 2 {
      var rest := path[1..];
      forall i | 0 < i < |rest|
        ensures spans[rest[i - 1]].parent == Some(spans[rest[i]].spanId)
      {
        assert rest[i - 1] == path[i + 1 - 1] && rest[i] == path[i + 1];
      }
      DescendantsComeFirst(spans, rest);
    }
  }

  // A task that starts with no span open ends with none, and its record is a forest holding
  // each span it opened exactly once.
  lemma TaskRecordsItsTree(work: Work)
    ensures var log := Control(work).0;
            var t := Replay(INITIAL, log);
            t.stack == [] && Forest(t.recorded) && Once(log, t.recorded)
  {
    var log := Control(work).0;
    var t := Replay(INITIAL, log);
    Restored(INITIAL, work);
    EveryRun(log);
    EachSpanOnce(log);
    assert t.recorded + [] == t.recorded;
  }

  // -- the tracer itself ----------------------------------------------------

  class SpanHandle {
    const traceId: nat
    const spanId: nat
    const parent: Option<nat>
    const name: string
    var error: Option<string>

    constructor (traceId: nat, spanId: nat, parent: Option<nat>, name: string)
      ensures ToSpan() == Span(traceId, spanId, parent, name, None)
    {
      this.traceId := traceId;
      this.spanId := spanId;
      this.parent := parent;
      this.name := name;
      this.error := None;
    }

    method RecordError(category: string)
      modifies this
      ensures error == Some(category)
    {
      error := Some(category);
    }

    function ToSpan(): Span
      reads this
    {
      Span(traceId, spanId, parent, name, error)
    }
  }

  // The tracer with its recorder, and the context variable that holds the current span.
  class Tracer {
    var current: SpanHandle?
    var spans: seq<Span>
    var nextId: nat
    ghost var handles: seq<SpanHandle>

    ghost predicate Valid()
      reads this
    {
      && (current == null <==> handles == [])
      && (handles != [] ==> current == handles[|handles| - 1])
      && (forall i, j :: 0 <= i < j < |handles| ==> handles[i] != handles[j])
    }

    // The open spans, outermost first; the source holds them only through the current one and
    // the token each `with` block keeps.
    ghost predicate Shows(s: State)
      reads this, handles
    {
      && Valid()
      && |s.stack| == |handles|
      && (forall i :: 0 <= i < |handles| ==> handles[i].ToSpan() == s.stack[i])
      && s.recorded == spans
      && s.next == nextId
    }

    constructor ()
      ensures Shows(INITIAL) && handles == []
    {
      current := null;
      spans := [];
      nextId := 0;
      handles := [];
    }

    // Entering `with tracer.span(name)`; the token restores the span that was current.
    method Enter(name: string, ghost s: State) returns (handle: SpanHandle, token: SpanHandle?)
      requires Shows(s)
      modifies this
      ensures Shows(After(s, Opens(name)))
      ensures Starts(s, nextId, name, handle.ToSpan()) && handle.error == None
      ensures fresh(handle) && handles == old(handles) + [handle] && token == old(current)
    {
      token := current;
      var parent := current;
      var traceId := nextId;
      var spanId := nextId + 1;
      if parent != null {
        traceId := parent.traceId;
        spanId := nextId;
      }
      handle := new SpanHandle(traceId, spanId, if parent == null then None else Some(parent.spanId), name);
      nextId := spanId + 1;
      current := handle;
      handles := handles + [handle];
    }

    // Leaving it, by returning or with something raised.
    method Exit(handle: SpanHandle, token: SpanHandle?, exit: Option<Raised>, ghost s: State)
      requires Shows(s) && handles != [] && handle == handles[|handles| - 1]
      requires token == if |handles| == 1 then null else handles[|handles| - 2]
      modifies this, handle
      ensures Shows(After(s, Closes(exit)))
      ensures handles == old(handles[..|handles| - 1]) && current == token
    {
      if exit.Some? && exit.value.Ordinary? {
        handle.RecordError(exit.value.typeName);
      }
      current := token;
      spans := spans + [handle.ToSpan()];
      handles := handles[..|handles| - 1];
    }

    method MarkAt(up: nat, category: string, inScope: seq<SpanHandle>, ghost s: State)
      requires Shows(s) && inScope == handles
      modifies handles
      ensures Shows(After(s, Marks(up, category)))
    {
      if up < |inScope| {
        inScope[|inScope| - 1 - up].RecordError(category);
      }
    }

    // A whole piece of work; `inScope` are the handles its enclosing `with` blocks gave it.
    method Run(work: Work, inScope: seq<SpanHandle>, ghost s: State) returns (outcome: Option<Raised>)
      requires Shows(s) && inScope == handles
      modifies this, handles
      ensures outcome == Control(work).1
      ensures Shows(Replay(s, Control(work).0))
      ensures current == old(current) && handles == old(handles)
      decreases work, 0
    {
      match work
      case Nothing =>
        outcome := None;
      case Raise(error) =>
        outcome := Some(error);
      case Mark(up, category) =>
        MarkAt(up, category, inScope, s);
        outcome := None;
        assert Control(work).0[..0] == [];
      case Then(first, second) =>
        outcome := Run(first, inScope, s);
        if outcome.None? {
          outcome := Run(second, inScope, Replay(s, Control(first).0));
          ReplayAppend(s, Control(first).0, Control(second).0);
        }
      case Catch(body, handler, catchesBase) =>
        outcome := Run(body, inScope, s);
        if outcome.Some? && (catchesBase || outcome.value.Ordinary?) {
          outcome := Run(handler, inScope, Replay(s, Control(body).0));
          ReplayAppend(s, Control(body).0, Control(handler).0);
        }
      case Finally(body, cleanup) =>
        outcome := Run(body, inScope, s);
        var raised := Run(cleanup, inScope, Replay(s, Control(body).0));
        ReplayAppend(s, Control(body).0, Control(cleanup).0);
        if raised.Some? {
          outcome := raised;
        }
      case WithSpan(name, body) =>
        outcome := RunInSpan(name, body, inScope, s);
        ReplayOfSpan(s, name, Control(body).0, outcome);
    }

    method RunInSpan(name: string, body: Work, inScope: seq<SpanHandle>, ghost s: State)
      returns (outcome: Option<Raised>)
      requires Shows(s) && inScope == handles
      modifies this, handles
      ensures outcome == Control(body).1
      ensures Shows(After(Replay(After(s, Opens(name)), Control(body).0), Closes(outcome)))
      ensures current == old(current) && handles == old(handles)
      decreases body, 1
    {
      var handle, token := Enter(name, s);
      ghost var inside := Replay(After(s, Opens(name)), Control(body).0);
      outcome := Run(body, inScope + [handle], After(s, Opens(name)));
      Exit(handle, token, outcome, inside);
      assert (inScope + [handle])[..|inScope|] == inScope;
    }
  }
}
