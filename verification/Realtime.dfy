// One page, one serial server and the two ordered channels of a WebSocket
// between them (backend/app/api/v1/realtime.py `_serve`,
// backend/app/realtime/answers.py, frontend/src/realtime/useRealtime.ts).
// No frame names the question it answers; `about` records it here, and neither
// side reads it.
module Realtime {
  import opened Frames
  import opened Answers
  import opened Page
  import opened Text
  import opened Wrappers

  datatype Question = Question(text: string, conversation: Option<string>, about: nat)

  datatype Tagged = Tagged(frame: Frame, about: nat)

  // The question the page believed was open, and the one its outcome belonged to.
  datatype Settlement = Settlement(open: nat, about: nat)

  datatype System = System(
    page: Page,
    toServer: seq<Question>,
    outbox: seq<Tagged>,
    toClient: seq<Tagged>,
    settled: seq<Settlement>)

  const INITIAL := System(BLANK, [], [], [], [])

  const MALFORMED := Error("realtime_protocol_error", "The message did not match the expected format.")

  datatype Action =
    | Connect
    | Submit(text: string)
    | Serve(outcome: Outcome, pieces: seq<string>)
    | Emit
    | Deliver
    | Drop
    | Fire(timer: nat)
    | Respond(id: nat, response: Response)
    | Clear

  // -- one step -----------------------------------------------------------

  ghost predicate Enabled(s: System, a: Action) {
    match a
    case Connect => !s.page.connected
    // The frame loop reads the next question only when the last is answered.
    case Serve(outcome, pieces) => s.outbox == [] && s.toServer != [] && CutOf(outcome, pieces)
    case Emit => s.outbox != []
    case Deliver => s.toClient != []
    case Drop => s.page.connected
    case Fire(timer) => timer in s.page.armed
    case Respond(id, _) => id in s.page.requests
    case _ => true
  }

  function Tag(frames: seq<Frame>, about: nat): (r: seq<Tagged>)
    ensures |r| == |frames|
  {
    seq(|frames|, i requires 0 <= i < |frames| => Tagged(frames[i], about))
  }

  function Served(question: Question, outcome: Outcome, pieces: seq<string>): seq<Tagged> {
    if ValidQuestion(question.text) then Tag(AnswerFrames(outcome, question.conversation, pieces), question.about)
    else [Tagged(MALFORMED, question.about)]
  }

  // What the page reports for the question it believes is open.
  function Reported(s: System, about: nat): seq<Settlement>
    requires s.page.awaiting ==> s.page.asks > 0
  {
    if s.page.awaiting then s.settled + [Settlement(s.page.asks - 1, about)] else s.settled
  }

  function Next(s: System, a: Action): System
    requires s.page.awaiting ==> s.page.asks > 0
    requires Enabled(s, a)
  {
    match a
    case Connect =>
      s.(page := s.page.(connected := true), toServer := [], outbox := [], toClient := [Tagged(Ready, 0)])
    // The page has been rendered since the last event.
    case Submit(text) =>
      var page := AfterSend(s.page, text, s.page.sending);
      s.(page := page,
         toServer := if page.asks == s.page.asks then s.toServer
                     else s.toServer + [Question(Strip(text), s.page.conversationId, s.page.asks)])
    case Serve(outcome, pieces) =>
      s.(toServer := s.toServer[1..], outbox := Served(s.toServer[0], outcome, pieces))
    case Emit => s.(outbox := s.outbox[1..], toClient := s.toClient + [s.outbox[0]])
    case Deliver =>
      var head := s.toClient[0];
      s.(page := AfterFrame(s.page, head.frame),
         toClient := s.toClient[1..],
         settled := if Terminates(head.frame) then Reported(s, head.about) else s.settled)
    case Drop =>
      s.(page := AfterClose(s.page), toServer := [], outbox := [], toClient := [],
         settled := if s.page.awaiting then Reported(s, s.page.asks - 1) else s.settled)
    case Fire(timer) => s.(page := AfterTimer(s.page, timer), settled := Reported(s, timer))
    case Respond(id, response) => s.(page := AfterResponse(s.page, id, response))
    case Clear => s.(page := AfterReset(s.page))
  }

  // -- the protocol's invariant -------------------------------------------

  function Answering(ts: seq<Tagged>): seq<Tagged> {
    if ts == [] then []
    else (if ts[0].frame.Ready? then [] else [ts[0]]) + Answering(ts[1..])
  }

  // The answer frames on their way to the page.
  function Coming(s: System): seq<Tagged> {
    Answering(s.toClient) + s.outbox
  }

  // What is left of one answer: deltas that complete the shown text, then its end.
  ghost predicate Rest(ts: seq<Tagged>, about: nat, shown: Option<string>) {
    ts != [] && ts[0].about == about
    && match ts[0].frame
       case Delta(text) => Rest(ts[1..], about, if shown.Some? then Some(shown.value + text) else None)
       case Complete(text, _, _, _, _, _) => |ts| == 1 && (shown.Some? ==> shown.value == text)
       case Error(_, _) => |ts| == 1
       case _ => false
  }

  // Nothing about any question is on its way in either direction.
  ghost predicate Quiet(s: System) {
    s.toServer == [] && Coming(s) == []
  }

  ghost predicate InFlight(s: System, about: nat) {
    || (|s.toServer| == 1 && s.toServer[0].about == about && Coming(s) == []
        && (Shown(s.page).Some? ==> Shown(s.page).value == ""))
    || (s.toServer == [] && Rest(Coming(s), about, Shown(s.page)))
  }

  ghost predicate Matched(settled: seq<Settlement>) {
    forall i :: 0 <= i < |settled| ==> settled[i] == Settlement(i, i)
  }

  // An open question has its own timer armed and its answer on the way; and whatever is on
  // the way answers the last question put on the socket, which alone is at work.
  ghost predicate Inv(s: System) {
    && Ui(s.page)
    && (s.page.awaiting ==> s.page.asks > 0 && !Quiet(s)
                            && s.page.answerTimer == Some(s.page.asks - 1) && s.page.asks - 1 in s.page.armed)
    && (!Quiet(s) ==> s.page.connected && s.page.asks > 0 && s.page.requests == {} && InFlight(s, s.page.asks - 1))
    && (!s.page.connected ==> s.toServer == [] && s.outbox == [] && s.toClient == [])
    && Matched(s.settled)
    && |s.settled| == s.page.asks - if s.page.awaiting then 1 else 0
  }

  lemma {:induction false} AnsweringAppend(a: seq<Tagged>, b: seq<Tagged>)
    ensures Answering(a + b) == Answering(a) + Answering(b)
  {
    if a == [] {
      assert a + b == b;
    } else {
      assert (a + b)[1..] == a[1..] + b;
      AnsweringAppend(a[1..], b);
    }
  }

  lemma {:induction false} RestHasNoReady(ts: seq<Tagged>, about: nat, shown: Option<string>, i: nat)
    requires Rest(ts, about, shown) && i < |ts|
    ensures !ts[i].frame.Ready? && ts[i].about == about
  {
    if i > 0 {
      var text := ts[0].frame.text;
      RestHasNoReady(ts[1..], about, if shown.Some? then Some(shown.value + text) else None, i - 1);
    }
  }

  lemma {:induction false} DeltasAreRest(
    pieces: seq<string>, last: Frame, text: string, about: nat, shown: Option<string>)
    requires last.Complete? && last.text == text
    requires shown.Some? ==> shown.value + Flat(pieces) == text
    ensures Rest(Tag(Deltas(pieces) + [last], about), about, shown)
    decreases |pieces|
  {
    var ts := Tag(Deltas(pieces) + [last], about);
    if pieces != [] {
      var next := if shown.Some? then Some(shown.value + pieces[0]) else None;
      assert shown.Some? ==> shown.value + Flat(pieces) == (shown.value + pieces[0]) + Flat(pieces[1..]);
      DeltasAreRest(pieces[1..], last, text, about, next);
      assert ts[1..] == Tag(Deltas(pieces[1..]) + [last], about);
    }
  }

  lemma AnswerIsRest(question: Question, outcome: Outcome, pieces: seq<string>, shown: Option<string>)
    requires CutOf(outcome, pieces) && (shown.Some? ==> shown.value == "")
    ensures Rest(Served(question, outcome, pieces), question.about, shown)
  {
    if ValidQuestion(question.text) && outcome.Replied? {
      assert shown.Some? ==> shown.value + Flat(pieces) == outcome.text;
      var last := Complete(outcome.text, |pieces|, question.conversation, true, outcome.citations, outcome.escalated);
      DeltasAreRest(pieces, last, outcome.text, question.about, shown);
    }
  }

  // -- the two steps that break it --------------------------------------------

  // A timer of an earlier question fires on the open one.
  ghost predicate StaleFire(s: System, a: Action) {
    a.Fire? && s.page.awaiting && s.page.answerTimer != Some(a.timer)
  }

  // A question goes on the socket while an earlier one, given up on, is still being answered.
  ghost predicate Overtakes(s: System, a: Action) {
    a.Submit? && Accepts(a.text, s.page.sending) && Streams(s.page) && !Quiet(s)
  }

  lemma SubmitKeeps(s: System, text: string)
    requires Inv(s)
    ensures Inv(Next(s, Submit(text))) <==> !Overtakes(s, Submit(text))
  {
    SendKeepsUi(s.page, text);
  }

  lemma ServeKeeps(s: System, outcome: Outcome, pieces: seq<string>)
    requires Inv(s) && Enabled(s, Serve(outcome, pieces))
    ensures Inv(Next(s, Serve(outcome, pieces)))
  {
    assert Answering(s.toClient) == [];
    AnswerIsRest(s.toServer[0], outcome, pieces, Shown(s.page));
    var served := Served(s.toServer[0], outcome, pieces);
    assert Coming(Next(s, Serve(outcome, pieces))) == [] + served == served;
  }

  lemma EmitKeepsComing(s: System)
    requires s.outbox != [] && !s.outbox[0].frame.Ready?
    requires s.page.awaiting ==> s.page.asks > 0
    ensures Coming(Next(s, Emit)) == Coming(s)
  {
    var head := s.outbox[0];
    AnsweringAppend(s.toClient, [head]);
    assert [head][1..] == [];
    assert Answering([head]) == [head];
  }

  lemma EmitKeeps(s: System)
    requires Inv(s) && Enabled(s, Emit)
    ensures Inv(Next(s, Emit))
  {
    assert Coming(s)[|Answering(s.toClient)|] == s.outbox[0];
    RestHasNoReady(Coming(s), s.page.asks - 1, Shown(s.page), |Answering(s.toClient)|);
    EmitKeepsComing(s);
  }

  // What the page has coming once the first frame is delivered.
  lemma HeadIsNext(s: System)
    requires Inv(s) && s.toClient != [] && !s.toClient[0].frame.Ready?
    ensures s.toServer == [] && s.page.requests == {}
    ensures Coming(s) == [s.toClient[0]] + Coming(Next(s, Deliver))
    ensures Rest([s.toClient[0]] + Coming(Next(s, Deliver)), s.page.asks - 1, Shown(s.page))
  {
    assert Coming(s) == [s.toClient[0]] + Coming(Next(s, Deliver));
  }

  lemma DeliverDeltaKeeps(s: System)
    requires Inv(s) && s.toClient != [] && s.toClient[0].frame.Delta?
    ensures Inv(Next(s, Deliver))
  {
    HeadIsNext(s);
    var coming := Coming(Next(s, Deliver));
    assert ([s.toClient[0]] + coming)[1..] == coming;
    DeltaKeepsUi(s.page, s.toClient[0].frame.text);
  }

  lemma DeliverEndKeeps(s: System)
    requires Inv(s) && s.toClient != [] && Terminates(s.toClient[0].frame)
    ensures Inv(Next(s, Deliver))
  {
    HeadIsNext(s);
    FrameKeepsUi(s.page, s.toClient[0].frame);
    assert Coming(Next(s, Deliver)) == [];
  }

  lemma DeliverKeeps(s: System)
    requires Inv(s) && Enabled(s, Deliver)
    ensures Inv(Next(s, Deliver))
  {
    var frame := s.toClient[0].frame;
    if frame.Ready? {
      assert Coming(Next(s, Deliver)) == Coming(s);
    } else if frame.Delta? {
      DeliverDeltaKeeps(s);
    } else {
      HeadIsNext(s);
      DeliverEndKeeps(s);
    }
  }

  lemma {:induction false} RestForgets(ts: seq<Tagged>, about: nat, shown: Option<string>)
    requires Rest(ts, about, shown)
    ensures Rest(ts, about, None)
  {
    if ts[0].frame.Delta? {
      var text := ts[0].frame.text;
      RestForgets(ts[1..], about, if shown.Some? then Some(shown.value + text) else None);
    }
  }

  lemma ClearKeeps(s: System)
    requires Inv(s)
    ensures Inv(Next(s, Clear))
  {
    if !Quiet(s) && s.toServer == [] {
      RestForgets(Coming(s), s.page.asks - 1, Shown(s.page));
    }
  }

  lemma FireKeeps(s: System, timer: nat)
    requires Inv(s) && Enabled(s, Fire(timer))
    ensures Inv(Next(s, Fire(timer))) <==> !StaleFire(s, Fire(timer))
  {
    TimerKeepsUi(s.page, timer);
    var t := Next(s, Fire(timer));
    if s.page.awaiting {
      assert t.settled[|s.settled|] == Settlement(s.page.asks - 1, timer);
      if s.toServer == [] {
        RestForgets(Coming(s), s.page.asks - 1, Shown(s.page));
      }
    }
  }

  // Of all steps only those two break the invariant, and they always do.
  lemma StepKeepsInv(s: System, a: Action)
    requires Inv(s) && Enabled(s, a)
    ensures Inv(Next(s, a)) <==> !StaleFire(s, a) && !Overtakes(s, a)
  {
    match a
    case Submit(text) => SubmitKeeps(s, text);
    case Serve(outcome, pieces) => ServeKeeps(s, outcome, pieces);
    case Emit => EmitKeeps(s);
    case Deliver => DeliverKeeps(s);
    case Drop => CloseKeepsUi(s.page);
    case Respond(id, response) => ResponseKeepsUi(s.page, id, response);
    case Connect => assert Answering([Tagged(Ready, 0)]) == [];
    case Clear => ClearKeeps(s);
    case Fire(timer) => FireKeeps(s, timer);
  }

  // -- runs ---------------------------------------------------------------

  ghost predicate Possible(s: System, a: Action) {
    (s.page.awaiting ==> s.page.asks > 0) && Enabled(s, a)
  }

  ghost predicate Orderly(s: System, a: Action) {
    !StaleFire(s, a) && !Overtakes(s, a)
  }

  // `t` is where a possible action leads.
  ghost predicate Leads(s: System, a: Action, t: System) {
    Possible(s, a) && t == Next(s, a)
  }

  // The states a run passes through, and the actions between them.
  datatype Run = Run(states: seq<System>, actions: seq<Action>) {
    predicate Shaped() {
      |states| == |actions| + 1
    }

    function Start(): System
      requires Shaped()
    {
      states[0]
    }

    function End(): System
      requires Shaped()
    {
      states[|actions|]
    }

    function Then(a: Action, t: System): Run {
      Run(states + [t], actions + [a])
    }
  }

  ghost predicate StepAt(r: Run, i: nat)
    requires r.Shaped() && i < |r.actions|
  {
    Leads(r.states[i], r.actions[i], r.states[i + 1])
  }

  ghost predicate IsRun(r: Run) {
    r.Shaped() && forall i :: 0 <= i < |r.actions| ==> StepAt(r, i)
  }

  ghost predicate OrderlyAt(r: Run, i: nat)
    requires r.Shaped() && i < |r.actions|
  {
    Orderly(r.states[i], r.actions[i])
  }

  // No stale timer fires on an open question, and no question overtakes an earlier one.
  ghost predicate IsOrderly(r: Run) {
    IsRun(r) && forall i :: 0 <= i < |r.actions| ==> OrderlyAt(r, i)
  }

  lemma Extend(r: Run, a: Action, t: System)
    requires IsRun(r) && Leads(r.End(), a, t)
    ensures IsRun(r.Then(a, t)) && r.Then(a, t).Start() == r.Start() && r.Then(a, t).End() == t
    ensures IsOrderly(r) && Orderly(r.End(), a) ==> IsOrderly(r.Then(a, t))
  {
    var more := r.Then(a, t);
    forall i | 0 <= i < |more.actions|
      ensures StepAt(more, i)
      ensures IsOrderly(r) && Orderly(r.End(), a) ==> OrderlyAt(more, i)
    {
      if i < |r.actions| {
        assert StepAt(r, i);
        assert IsOrderly(r) ==> OrderlyAt(r, i);
      }
    }
  }

  // -- what every orderly run guarantees ----------------------------------

  lemma InitialInv()
    ensures Inv(INITIAL)
  {
  }

  lemma {:induction false} RunKeepsInv(r: Run, n: nat)
    requires IsOrderly(r) && Inv(r.Start()) && n <= |r.actions|
    ensures Inv(r.states[n])
  {
    if n > 0 {
      RunKeepsInv(r, n - 1);
      assert StepAt(r, n - 1) && OrderlyAt(r, n - 1);
      StepKeepsInv(r.states[n - 1], r.actions[n - 1]);
    }
  }

  // Every question put on the socket is settled exactly once, in order, by its own outcome,
  // be it an answer, a close or its own timer; only the open one is outstanding, and what is
  // on the way answers the last question.
  lemma EachAnswerMeetsItsQuestion(r: Run)
    requires IsOrderly(r) && r.Start() == INITIAL
    ensures var s := r.End();
            && |s.settled| == s.page.asks - (if s.page.awaiting then 1 else 0)
            && (forall i :: 0 <= i < |s.settled| ==> s.settled[i] == Settlement(i, i))
            && (Quiet(s) || (s.page.asks > 0 && InFlight(s, s.page.asks - 1)))
            && (s.page.awaiting ==> !Quiet(s) && s.page.asks - 1 in s.page.armed)
  {
    InitialInv();
    RunKeepsInv(r, |r.actions|);
  }

  lemma CompleteMeetsDeltas(s: System)
    requires Inv(s) && s.toClient != [] && s.toClient[0].frame.Complete?
    ensures s.page.asks > 0 && s.toClient[0].about == s.page.asks - 1
    ensures s.page.streamingId.Some? ==>
              && s.page.awaiting && Shown(s.page) == Some(s.toClient[0].frame.text)
              && s.page.turns[|s.page.turns| - 1].id == s.page.streamingId.value
  {
    HeadIsNext(s);
  }

  lemma LateCompleteIsIgnored(s: System)
    requires !s.page.awaiting && s.toClient != [] && s.toClient[0].frame.Complete?
    ensures Next(s, Deliver).page == s.page && Next(s, Deliver).settled == s.settled
  {
  }

  // A Complete frame that reaches a page still waiting is for its open question, and the
  // deltas already shown concatenate to exactly its text; one that comes too late for its
  // question changes nothing.
  lemma DeltasAddUp(r: Run)
    requires IsOrderly(r) && r.Start() == INITIAL
    requires r.End().toClient != [] && r.End().toClient[0].frame.Complete?
    ensures var s := r.End();
            && s.page.asks > 0 && s.toClient[0].about == s.page.asks - 1
            && (s.page.streamingId.Some? ==>
                  && s.page.awaiting && Shown(s.page) == Some(s.toClient[0].frame.text)
                  && s.page.turns[|s.page.turns| - 1].id == s.page.streamingId.value)
            && (!s.page.awaiting ==> Next(s, Deliver).page == s.page && Next(s, Deliver).settled == s.settled)
  {
    InitialInv();
    RunKeepsInv(r, |r.actions|);
    CompleteMeetsDeltas(r.End());
    if !r.End().page.awaiting {
      LateCompleteIsIgnored(r.End());
    }
  }

  // A timer that fires on its own question frees the page and leaves the answer on its way.
  lemma TimeoutLeavesAnAnswerInFlight(s: System, timer: nat)
    requires Inv(s) && Enabled(s, Fire(timer))
    ensures !Next(s, Fire(timer)).page.awaiting
    ensures s.page.awaiting ==> !Quiet(Next(s, Fire(timer)))
  {
  }

  // -- what every run keeps, orderly or not -------------------------------

  // A question goes over HTTP only while the socket is down, and nothing that could fail it
  // arrives on the socket until its reply.
  ghost predicate PageInv(s: System) {
    && Ui(s.page)
    && (s.page.awaiting ==> s.page.asks > 0)
    && (!s.page.connected ==> s.toServer == [] && s.outbox == [] && s.toClient == [])
    && (s.page.requests != {} ==> Quiet(s))
  }

  lemma DeliverKeepsPage(s: System)
    requires PageInv(s) && Enabled(s, Deliver)
    ensures PageInv(Next(s, Deliver))
    ensures s.toClient[0].frame.Error? ==> s.page.requests == {}
  {
    FrameKeepsUi(s.page, s.toClient[0].frame);
    assert Coming(s) == (if s.toClient[0].frame.Ready? then [] else [s.toClient[0]]) + Coming(Next(s, Deliver));
  }

  lemma StepKeepsPage(s: System, a: Action)
    requires PageInv(s) && Enabled(s, a)
    ensures PageInv(Next(s, a))
  {
    match a
    case Submit(text) => SendKeepsUi(s.page, text);
    case Deliver => DeliverKeepsPage(s);
    case Drop => CloseKeepsUi(s.page);
    case Respond(id, response) => ResponseKeepsUi(s.page, id, response);
    case Fire(timer) => TimerKeepsUi(s.page, timer);
    case Connect => assert Answering([Tagged(Ready, 0)]) == [];
    case _ =>
  }

  lemma {:induction false} RunKeepsPage(r: Run, n: nat)
    requires IsRun(r) && r.Start() == INITIAL && n <= |r.actions|
    ensures PageInv(r.states[n])
  {
    if n > 0 {
      RunKeepsPage(r, n - 1);
      assert StepAt(r, n - 1);
      StepKeepsPage(r.states[n - 1], r.actions[n - 1]);
    }
  }

  // Whatever happens, stale timers and overtaking included, the page stays in order: it is
  // sending exactly while one question is at work, over the socket or over HTTP, it shows
  // nothing pending otherwise, and no Error frame meets a question at work over HTTP.
  lemma PageStaysInOrder(r: Run)
    requires IsRun(r) && r.Start() == INITIAL
    ensures var s := r.End();
            && Ui(s.page)
            && (s.page.sending <==> s.page.awaiting || s.page.requests != {})
            && (!s.page.sending ==> NonePending(s.page.turns))
            && (s.toClient != [] && s.toClient[0].frame.Error? ==> s.page.requests == {})
  {
    RunKeepsPage(r, |r.actions|);
    if r.End().toClient != [] {
      DeliverKeepsPage(r.End());
    }
  }

  // -- what is owed, in every run -------------------------------------------

  // The questions whose answers end in these frames.
  function EndsOf(ts: seq<Tagged>): seq<nat> {
    if ts == [] then [] else EndOf(ts[0]) + EndsOf(ts[1..])
  }

  function EndOf(t: Tagged): seq<nat> {
    if Terminates(t.frame) then [t.about] else []
  }

  function AboutsOf(questions: seq<Question>): (abouts: seq<nat>)
    ensures |abouts| == |questions|
  {
    seq(|questions|, i requires 0 <= i < |questions| => questions[i].about)
  }

  // The questions that were put on the socket and whose outcome has not reached the page, the
  // one whose outcome comes next first.
  function Owed(s: System): seq<nat> {
    EndsOf(s.toClient) + EndsOf(s.outbox) + AboutsOf(s.toServer)
  }

  lemma {:induction false} EndsOfAppend(a: seq<Tagged>, b: seq<Tagged>)
    ensures EndsOf(a + b) == EndsOf(a) + EndsOf(b)
  {
    if a == [] {
      assert a + b == b;
    } else {
      assert (a + b)[0] == a[0] && (a + b)[1..] == a[1..] + b;
      EndsOfAppend(a[1..], b);
      assert EndsOf(a + b) == EndOf(a[0]) + (EndsOf(a[1..]) + EndsOf(b));
    }
  }

  lemma EndsOfOne(t: Tagged)
    ensures EndsOf([t]) == EndOf(t)
  {
    assert [t][1..] == [];
  }

  lemma {:induction false} DeltasEndNone(pieces: seq<string>, about: nat)
    ensures EndsOf(Tag(Deltas(pieces), about)) == []
  {
    if pieces != [] {
      assert Tag(Deltas(pieces), about)[1..] == Tag(Deltas(pieces[1..]), about);
      DeltasEndNone(pieces[1..], about);
    }
  }

  // Whatever a question is answered with, it ends once, and that end is its own.
  lemma ServedEndsOnce(question: Question, outcome: Outcome, pieces: seq<string>)
    ensures EndsOf(Served(question, outcome, pieces)) == [question.about]
  {
    var served := Served(question, outcome, pieces);
    var last := served[|served| - 1];
    EndsOfOne(last);
    if ValidQuestion(question.text) && outcome.Replied? {
      assert served == Tag(Deltas(pieces), question.about) + [last];
      DeltasEndNone(pieces, question.about);
      EndsOfAppend(Tag(Deltas(pieces), question.about), [last]);
    } else {
      assert served == [last];
    }
  }

  // What a step does to what is owed.
  function OwedAfter(s: System, a: Action): seq<nat> {
    match a
    case Submit(text) =>
      if Accepts(text, s.page.sending) && Streams(s.page) then Owed(s) + [s.page.asks] else Owed(s)
    case Deliver =>
      if s.toClient != [] && Terminates(s.toClient[0].frame) && Owed(s) != [] then Owed(s)[1..] else Owed(s)
    case Connect => []
    case Drop => []
    case _ => Owed(s)
  }

  lemma ServeOwes(s: System, outcome: Outcome, pieces: seq<string>)
    requires Possible(s, Serve(outcome, pieces))
    ensures Owed(Next(s, Serve(outcome, pieces))) == Owed(s)
  {
    var first, rest := s.toServer[0], s.toServer[1..];
    ServedEndsOnce(first, outcome, pieces);
    assert AboutsOf(s.toServer) == [first.about] + AboutsOf(rest);
    assert EndsOf(s.outbox) == [];
    assert EndsOf(s.toClient) + [] + ([first.about] + AboutsOf(rest)) ==
           EndsOf(s.toClient) + [first.about] + AboutsOf(rest);
  }

  lemma OneMoved(a: seq<Tagged>, head: Tagged, b: seq<Tagged>)
    ensures EndsOf(a + [head]) + EndsOf(b) == EndsOf(a) + EndsOf([head] + b)
  {
    EndsOfAppend(a, [head]);
    EndsOfAppend([head], b);
    assert EndsOf(a) + EndsOf([head]) + EndsOf(b) == EndsOf(a) + (EndsOf([head]) + EndsOf(b));
  }

  lemma EmitOwes(s: System)
    requires Possible(s, Emit)
    ensures Owed(Next(s, Emit)) == Owed(s)
  {
    assert s.outbox == [s.outbox[0]] + s.outbox[1..];
    OneMoved(s.toClient, s.outbox[0], s.outbox[1..]);
  }

  lemma StepOwes(s: System, a: Action)
    requires Possible(s, a)
    ensures Owed(Next(s, a)) == OwedAfter(s, a)
    ensures a.Deliver? && Terminates(s.toClient[0].frame) ==> Owed(s) != [] && s.toClient[0].about == Owed(s)[0]
  {
    match a
    case Serve(outcome, pieces) => ServeOwes(s, outcome, pieces);
    case Emit => EmitOwes(s);
    case Submit(text) => SubmitOwes(s, text);
    case Deliver =>
    case Connect => EndsOfOne(Tagged(Ready, 0));
    case _ =>
  }

  lemma SubmitOwes(s: System, text: string)
    requires Possible(s, Submit(text))
    ensures Owed(Next(s, Submit(text))) == OwedAfter(s, Submit(text))
  {
    if Accepts(text, s.page.sending) && Streams(s.page) {
      var question := Question(Strip(text), s.page.conversationId, s.page.asks);
      assert Next(s, Submit(text)).toServer == s.toServer + [question];
      assert AboutsOf(s.toServer + [question]) == AboutsOf(s.toServer) + [s.page.asks];
    }
  }

  // The last questions asked, in the order in which they were.
  ghost predicate LastAsked(owed: seq<nat>, asks: nat) {
    |owed| <= asks && forall i :: 0 <= i < |owed| ==> owed[i] == asks - |owed| + i
  }

  lemma OrderGoesOn(owed: seq<nat>, asks: nat)
    requires LastAsked(owed, asks)
    ensures LastAsked([], asks) && LastAsked(owed + [asks], asks + 1)
    ensures owed != [] ==> LastAsked(owed[1..], asks)
  {
  }

  lemma StepAsks(s: System, a: Action)
    requires Possible(s, a)
    ensures Next(s, a).page.asks ==
            s.page.asks + if a.Submit? && Accepts(a.text, s.page.sending) && Streams(s.page) then 1 else 0
  {
    match a
    case Submit(_) =>
    case Deliver =>
    case Respond(_, _) =>
    case _ =>
  }

  lemma StepKeepsOrder(s: System, a: Action)
    requires Possible(s, a) && LastAsked(Owed(s), s.page.asks)
    ensures LastAsked(Owed(Next(s, a)), Next(s, a).page.asks)
  {
    var owed := Owed(s);
    OrderGoesOn(owed, s.page.asks);
    StepOwes(s, a);
    StepAsks(s, a);
    assert OwedAfter(s, a) in {[], owed, owed + [s.page.asks]} || (owed != [] && OwedAfter(s, a) == owed[1..]);
  }

  lemma {:induction false} RunKeepsOrder(r: Run, n: nat)
    requires IsRun(r) && r.Start() == INITIAL && n <= |r.actions|
    ensures LastAsked(Owed(r.states[n]), r.states[n].page.asks)
  {
    if n > 0 {
      RunKeepsOrder(r, n - 1);
      assert StepAt(r, n - 1);
      StepKeepsOrder(r.states[n - 1], r.actions[n - 1]);
    }
  }

  // In every run, orderly or not: no answer is lost, doubled or passed by another. What is owed
  // are the last questions put on the socket, each once and in order, whatever timers fired
  // meanwhile; only a close or a new connection forgets them.
  lemma AnswersComeInOrder(r: Run)
    requires IsRun(r) && r.Start() == INITIAL
    ensures LastAsked(Owed(r.End()), r.End().page.asks)
    ensures forall a :: Possible(r.End(), a) ==> Owed(Next(r.End(), a)) == OwedAfter(r.End(), a)
    ensures Possible(r.End(), Deliver) && Terminates(r.End().toClient[0].frame) ==>
              Owed(r.End()) != [] && r.End().toClient[0].about == Owed(r.End())[0]
  {
    RunKeepsOrder(r, |r.actions|);
    forall a | Possible(r.End(), a)
      ensures Owed(Next(r.End(), a)) == OwedAfter(r.End(), a)
    {
      StepOwes(r.End(), a);
    }
    if Possible(r.End(), Deliver) {
      StepOwes(r.End(), Deliver);
    }
  }

  // -- one step more --------------------------------------------------------

  lemma ThenSubmit(r: Run, text: string) returns (t: Run)
    requires IsRun(r) && Strip(text) != ""
    requires r.End().page.connected && !r.End().page.awaiting && !r.End().page.sending
    ensures IsRun(t) && t.Start() == r.Start() && t.actions == r.actions + [Submit(text)]
    ensures var s, u := r.End(), t.End();
            && u.page.awaiting && u.page.asks == s.page.asks + 1 && u.page.connected
            && s.page.armed <= u.page.armed && s.page.asks in u.page.armed
            && u.toClient == s.toClient && u.settled == s.settled && u.outbox == s.outbox
            && |u.toServer| == |s.toServer| + 1 && u.toServer[..|s.toServer|] == s.toServer
            && u.toServer[|s.toServer|].about == s.page.asks
    ensures IsOrderly(r) && Quiet(r.End()) ==> IsOrderly(t)
  {
    t := r.Then(Submit(text), Next(r.End(), Submit(text)));
    Extend(r, Submit(text), t.End());
  }

  lemma ThenFire(r: Run, timer: nat) returns (t: Run)
    requires IsRun(r) && r.End().page.awaiting && r.End().page.asks > 0 && timer in r.End().page.armed
    ensures IsRun(t) && t.Start() == r.Start() && t.actions == r.actions + [Fire(timer)]
    ensures var s, u := r.End(), t.End();
            && !u.page.awaiting && !u.page.sending
            && u.page.connected == s.page.connected && u.page.asks == s.page.asks && u.toClient == s.toClient
            && u.settled == s.settled + [Settlement(s.page.asks - 1, timer)]
  {
    t := r.Then(Fire(timer), Next(r.End(), Fire(timer)));
    Extend(r, Fire(timer), t.End());
  }

  lemma ThenEmit(r: Run) returns (t: Run)
    requires IsRun(r) && r.End().outbox != [] && !r.End().outbox[0].frame.Ready?
    requires r.End().page.awaiting ==> r.End().page.asks > 0
    ensures IsRun(t) && t.Start() == r.Start() && t.actions == r.actions + [Emit]
    ensures var s, u := r.End(), t.End();
            && Coming(u) == Coming(s) && u.page == s.page && u.settled == s.settled && u.toServer == s.toServer
            && u.outbox == s.outbox[1..] && u.toClient == s.toClient + [s.outbox[0]]
    ensures IsOrderly(r) ==> IsOrderly(t)
  {
    EmitKeepsComing(r.End());
    t := r.Then(Emit, Next(r.End(), Emit));
    Extend(r, Emit, t.End());
  }

  // What delivering the first frame to an open question does.
  ghost predicate Delivered(s: System, u: System)
    requires s.toClient != [] && s.page.asks > 0
  {
    var head := s.toClient[0];
    && u.outbox == s.outbox && |u.toClient| == |s.toClient| - 1
    && u.page.connected == s.page.connected && u.page.asks == s.page.asks && u.page.armed == s.page.armed
    && Coming(s) == (if head.frame.Ready? then [] else [head]) + Coming(u)
    && (if Terminates(head.frame)
        then u.settled == s.settled + [Settlement(s.page.asks - 1, head.about)]
             && !u.page.awaiting && !u.page.sending
        else u.settled == s.settled && u.page.awaiting)
  }

  lemma DeliverDelivers(s: System)
    requires s.page.awaiting && s.page.asks > 0 && s.toClient != []
    ensures Delivered(s, Next(s, Deliver))
  {
    var u, head := Next(s, Deliver), s.toClient[0];
    assert Coming(s) == (if head.frame.Ready? then [] else [head]) + Coming(u);
  }

  lemma ThenDeliver(r: Run) returns (t: Run)
    requires IsRun(r) && r.End().page.awaiting && r.End().page.asks > 0 && r.End().toClient != []
    ensures IsRun(t) && t.Start() == r.Start() && t.actions == r.actions + [Deliver]
    ensures Delivered(r.End(), t.End())
    ensures IsOrderly(r) ==> IsOrderly(t)
  {
    DeliverDelivers(r.End());
    var u := Next(r.End(), Deliver);
    assert Leads(r.End(), Deliver, u);
    t := r.Then(Deliver, u);
    Extend(r, Deliver, u);
  }

  // The server answers the next question with an error.
  lemma ThenBreak(r: Run) returns (t: Run)
    requires IsRun(r) && r.End().page.awaiting && r.End().page.asks > 0
    requires r.End().toServer != [] && r.End().outbox == []
    ensures IsRun(t) && t.Start() == r.Start() && t.actions == r.actions + [Serve(Broke, [])]
    ensures var s, u := r.End(), t.End();
            && u.page == s.page && u.settled == s.settled && u.toClient == s.toClient
            && u.toServer == s.toServer[1..] && Rest(u.outbox, s.toServer[0].about, None)
            && |u.outbox| == 1 && Terminates(u.outbox[0].frame) && u.outbox[0].about == s.toServer[0].about
    ensures IsOrderly(r) ==> IsOrderly(t)
  {
    var serve := Serve(Broke, []);
    AnswerIsRest(r.End().toServer[0], Broke, [], None);
    t := r.Then(serve, Next(r.End(), serve));
    Extend(r, serve, t.End());
  }

  // -- the condition is exact ---------------------------------------------

  ghost predicate Settles(t: Run, r: Run, wrong: Settlement)
    requires t.Shaped() && r.Shaped()
  {
    IsOrderly(t) && t.Start() == r.Start() && t.End().settled == r.End().settled + [wrong]
  }

  lemma RestGoesOn(s: System, u: System, about: nat, shown: Option<string>) returns (next: Option<string>)
    requires s.toClient != [] && s.page.asks > 0 && Delivered(s, u) && Rest(Coming(s), about, shown)
    ensures var head := s.toClient[0];
            if Terminates(head.frame) then head.about == about else Rest(Coming(u), about, next)
  {
    var head := s.toClient[0];
    next := if head.frame.Delta? && shown.Some? then Some(shown.value + head.frame.text) else shown;
    if head.frame.Ready? {
      assert Coming(s) == Coming(u);
    } else {
      assert ([head] + Coming(u))[1..] == Coming(u);
    }
  }

  // An answer under way settles whatever question is open when it ends.
  lemma {:induction false} LateAnswerSettles(r: Run, about: nat, shown: Option<string>) returns (t: Run)
    requires IsOrderly(r) && r.End().page.awaiting && r.End().page.asks > 0 && Rest(Coming(r.End()), about, shown)
    ensures t.Shaped() && Settles(t, r, Settlement(r.End().page.asks - 1, about))
    decreases 2 * |r.End().outbox| + |r.End().toClient|
  {
    var s := r.End();
    if s.toClient == [] {
      assert Coming(s)[0] == s.outbox[0];
      var u := ThenEmit(r);
      t := LateAnswerSettles(u, about, shown);
    } else {
      t := ThenDeliver(r);
      var next := RestGoesOn(s, t.End(), about, shown);
      if !Terminates(s.toClient[0].frame) {
        t := LateAnswerSettles(t, about, next);
      }
    }
  }

  // A question not yet served is answered, and then settles the open one.
  lemma UnservedSettles(r: Run, about: nat) returns (t: Run)
    requires IsOrderly(r) && r.End().page.awaiting && r.End().page.asks > 0
    requires r.End().toServer != [] && r.End().toServer[0].about == about && Coming(r.End()) == []
    ensures t.Shaped() && Settles(t, r, Settlement(r.End().page.asks - 1, about))
  {
    assert Answering(r.End().toClient) == [] && r.End().outbox == [];
    var u := ThenBreak(r);
    assert Coming(u.End()) == [] + u.End().outbox == u.End().outbox;
    t := LateAnswerSettles(u, about, None);
  }

  function Still(s: System): Run {
    Run([s], [])
  }

  // A question that overtakes another can be settled by the other's answer.
  lemma OvertakingMismatches(s: System, text: string) returns (t: Run)
    requires Inv(s) && Overtakes(s, Submit(text))
    ensures IsOrderly(t) && t.Start() == Next(s, Submit(text))
    ensures t.End().settled == s.settled + [Settlement(s.page.asks, s.page.asks - 1)]
  {
    var asked := ThenSubmit(Still(s), text);
    assert StepAt(asked, 0);
    t := OvertakenSettles(s, asked.End());
  }

  lemma OvertakenSettles(s: System, u: System) returns (t: Run)
    requires s.page.asks > 0 && InFlight(s, s.page.asks - 1)
    requires u.page.awaiting && u.page.asks == s.page.asks + 1 && u.toClient == s.toClient && u.outbox == s.outbox
    requires |u.toServer| == |s.toServer| + 1 && u.toServer[..|s.toServer|] == s.toServer
    ensures t.Shaped() && Settles(t, Still(u), Settlement(s.page.asks, s.page.asks - 1))
  {
    assert Coming(u) == Coming(s);
    if s.toServer == [] {
      RestForgets(Coming(s), s.page.asks - 1, Shown(s.page));
      t := LateAnswerSettles(Still(u), s.page.asks - 1, None);
    } else {
      t := UnservedSettles(Still(u), s.page.asks - 1);
    }
  }

  ghost predicate StaysMatched(s: System) {
    forall r :: IsOrderly(r) && r.Start() == s ==> Matched(r.End().settled)
  }

  lemma OrderlyRunsStayMatched(s: System)
    requires Inv(s)
    ensures StaysMatched(s)
  {
    forall r | IsOrderly(r) && r.Start() == s
      ensures Matched(r.End().settled)
    {
      RunKeepsInv(r, |r.actions|);
    }
  }

  lemma MismatchSeen(r: Run, settled: seq<Settlement>, wrong: Settlement)
    requires IsOrderly(r) && r.End().settled == settled + [wrong]
    requires wrong != Settlement(|settled|, |settled|)
    ensures !StaysMatched(r.Start())
  {
    assert r.End().settled[|settled|] == wrong;
    assert !Matched(r.End().settled);
  }

  // Outcomes keep meeting their questions, however an orderly run goes on, exactly after an
  // orderly step: a stale timer mismatches at once, an overtaking question when the older
  // answer ends.
  lemma MatchingIsLostExactly(s: System, a: Action)
    requires Inv(s) && Enabled(s, a)
    ensures StaysMatched(Next(s, a)) <==> Orderly(s, a)
  {
    if Orderly(s, a) {
      StepKeepsInv(s, a);
      OrderlyRunsStayMatched(Next(s, a));
    } else if StaleFire(s, a) {
      StaleFireMismatches(s, a.timer);
    } else {
      var r := OvertakingMismatches(s, a.text);
      MismatchSeen(r, s.settled, Settlement(s.page.asks, s.page.asks - 1));
    }
  }

  lemma StaleFireMismatches(s: System, timer: nat)
    requires Inv(s) && Enabled(s, Fire(timer)) && StaleFire(s, Fire(timer))
    ensures !StaysMatched(Next(s, Fire(timer)))
  {
    MismatchSeen(Still(Next(s, Fire(timer))), s.settled, Settlement(s.page.asks - 1, timer));
  }

  // -- both failures happen -----------------------------------------------

  // The end of the open question's answer is the next frame the page will read.
  ghost predicate AnswerAtHand(s: System) {
    && s.page.connected && s.page.awaiting && s.page.asks > 0 && s.page.asks - 1 in s.page.armed
    && s.toClient != [] && Terminates(s.toClient[0].frame) && s.toClient[0].about == s.page.asks - 1
  }

  lemma EndMeansAnswerAtHand(s: System)
    requires Inv(s) && s.page.awaiting && s.toClient != [] && Terminates(s.toClient[0].frame)
    ensures AnswerAtHand(s)
  {
    HeadIsNext(s);
  }

  ghost predicate Arrived(s: System, u: System) {
    && u.page.connected && !u.page.awaiting && !u.page.sending
    && u.page.asks == s.page.asks > 0 && s.page.asks - 1 in u.page.armed
    && u.settled == s.settled + [Settlement(s.page.asks - 1, s.page.asks - 1)]
  }

  lemma AnswerArrives(s: System)
    requires AnswerAtHand(s)
    ensures Leads(s, Deliver, Next(s, Deliver)) && Arrived(s, Next(s, Deliver))
  {
    DeliverDelivers(s);
  }

  lemma ThenArrives(r: Run) returns (t: Run)
    requires IsRun(r) && AnswerAtHand(r.End())
    ensures IsRun(t) && t.Start() == r.Start() && t.actions == r.actions + [Deliver]
    ensures Arrived(r.End(), t.End())
  {
    AnswerArrives(r.End());
    var u := Next(r.End(), Deliver);
    t := r.Then(Deliver, u);
    Extend(r, Deliver, u);
  }

  // Complete and Error leave the answer timer armed: after any question that was
  // answered, its timer can still fire, and then it times out the next question.
  lemma StaleTimerHitsNextQuestion(r: Run, text: string) returns (t: Run)
    requires IsRun(r) && AnswerAtHand(r.End()) && Strip(text) != ""
    ensures var timer := r.End().page.asks - 1;
            && IsRun(t) && t.Start() == r.Start()
            && t.actions == r.actions + [Deliver] + [Submit(text)] + [Fire(timer)]
            && t.End().settled ==
               r.End().settled + [Settlement(timer, timer)] + [Settlement(timer + 1, timer)]
  {
    var answered := ThenArrives(r);
    var asked := ThenSubmit(answered, text);
    t := ThenFire(asked, r.End().page.asks - 1);
  }

  // After a timeout the old answer is still coming, and the next question takes
  // it for its own.
  lemma LateAnswerMeetsNextQuestion(r: Run, text: string) returns (t: Run)
    requires IsRun(r) && AnswerAtHand(r.End()) && Strip(text) != ""
    ensures var timer := r.End().page.asks - 1;
            && IsRun(t) && t.Start() == r.Start()
            && t.actions == r.actions + [Fire(timer)] + [Submit(text)] + [Deliver]
            && t.End().settled ==
               r.End().settled + [Settlement(timer, timer)] + [Settlement(timer + 1, timer)]
  {
    var timedOut := ThenFire(r, r.End().page.asks - 1);
    var asked := ThenSubmit(timedOut, text);
    t := ThenDeliver(asked);
  }

  lemma PageGetsReady() returns (r: Run)
    ensures IsOrderly(r) && r.Start() == INITIAL
    ensures var s := r.End();
            && s.page == BLANK.(connected := true) && s.settled == []
            && s.toServer == [] && s.outbox == [] && s.toClient == []
  {
    var started := Next(INITIAL, Connect);
    var first := Still(INITIAL).Then(Connect, started);
    Extend(Still(INITIAL), Connect, started);
    r := first.Then(Deliver, Next(started, Deliver));
    Extend(first, Deliver, r.End());
  }

  // A first question is on its way to the server.
  lemma QuestionIsAsked(text: string) returns (r: Run)
    requires Strip(text) != ""
    ensures IsOrderly(r) && r.Start() == INITIAL
    ensures var s := r.End();
            && s.page.connected && s.page.awaiting && s.page.asks == 1 && 0 in s.page.armed && s.settled == []
            && |s.toServer| == 1 && s.toServer[0].about == 0 && s.outbox == [] && s.toClient == []
  {
    var ready := PageGetsReady();
    assert Quiet(ready.End());
    r := ThenSubmit(ready, text);
  }

  lemma AnswerIsOnItsWay(r: Run) returns (t: Run)
    requires IsOrderly(r) && r.End().page.awaiting && r.End().page.asks > 0
    requires r.End().toServer != [] && r.End().outbox == [] && r.End().toClient == []
    ensures IsOrderly(t) && t.Start() == r.Start()
    ensures var s, u := r.End(), t.End();
            && u.page == s.page && u.settled == s.settled && u.toClient != []
            && Terminates(u.toClient[0].frame) && u.toClient[0].about == s.toServer[0].about
  {
    var broken := ThenBreak(r);
    t := ThenEmit(broken);
  }

  // An orderly run from a blank page reaches a state in which an answer is at hand.
  lemma AnswerComesToHand() returns (r: Run)
    ensures IsOrderly(r) && r.Start() == INITIAL
    ensures AnswerAtHand(r.End()) && r.End().page.asks == 1 && r.End().settled == []
  {
    StripOfTrimmed("a");
    var asked := QuestionIsAsked("a");
    r := AnswerIsOnItsWay(asked);
  }

  // From a blank page, a stale timer and a late answer can each settle the second question
  // by what belongs to the first.
  lemma BothFailuresHappen() returns (stale: Run, late: Run)
    ensures IsRun(stale) && stale.Start() == INITIAL
    ensures IsRun(late) && late.Start() == INITIAL
    ensures stale.End().settled == late.End().settled == [Settlement(0, 0), Settlement(1, 0)]
  {
    StripOfTrimmed("b");
    var r := AnswerComesToHand();
    stale := StaleTimerHitsNextQuestion(r, "b");
    late := LateAnswerMeetsNextQuestion(r, "b");
  }
}
