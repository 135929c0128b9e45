// The browser's half of a realtime conversation: the socket hook
// (frontend/src/realtime/useRealtime.ts) and the turns it drives
// (frontend/src/conversation/useConversation.ts), as ConversationScreen wires them.
module Page {
  import opened Frames
  import opened Text
  import opened Wrappers

  datatype TurnStatus = Sent | Pending | Failed

  datatype Turn = Turn(
    id: nat,
    assistant: bool,
    text: string,
    status: TurnStatus,
    streaming: bool,
    citations: seq<string>,
    escalated: bool,
    grounded: Option<bool>,
    traceId: Option<string>)

  datatype FailureKind = Offline | Unauthenticated | RateLimited | ServerSide | BadRequest

  datatype Failure = Failure(kind: FailureKind, message: string, retryable: bool)

  // How a request over HTTP ends: with a reply, with the API's own error, or otherwise.
  datatype Response =
    | Reply(text: string, conversationId: Option<string>, citations: seq<string>, escalated: bool,
        traceId: Option<string>)
    | ApiError(status: nat, message: string)
    | Thrown

  // Both hooks' refs and state. `asks` numbers the questions put on the socket;
  // the same numbers name the answer timers.
  datatype Page = Page(
    connected: bool,
    awaiting: bool,
    asks: nat,
    armed: set<nat>,
    answerTimer: Option<nat>,
    streamingId: Option<nat>,
    turns: seq<Turn>,
    sending: bool,
    requests: set<nat>,
    nextId: nat,
    conversationId: Option<string>,
    failure: Option<Failure>,
    authRequired: bool)

  const BLANK := Page(false, false, 0, {}, None, None, [], false, {}, 0, None, None, false)

  // -- useConversation ----------------------------------------------------

  function WithText(turns: seq<Turn>, target: nat, text: string): (r: seq<Turn>)
    ensures |r| == |turns|
  {
    seq(|turns|, i requires 0 <= i < |turns| =>
      if turns[i].id == target then turns[i].(text := turns[i].text + text) else turns[i])
  }

  function AfterDelta(p: Page, text: string): Page {
    if p.streamingId.None? then p else p.(turns := WithText(p.turns, p.streamingId.value, text))
  }

  function Finished(turns: seq<Turn>, target: nat, answer: Frame): (r: seq<Turn>)
    requires answer.Complete?
    ensures |r| == |turns|
  {
    seq(|turns|, i requires 0 <= i < |turns| =>
      if turns[i].id == target then
        turns[i].(text := answer.text, status := Sent, streaming := false, citations := answer.citations,
                  escalated := answer.escalated, grounded := Some(answer.grounded))
      else if turns[i].status == Pending then turns[i].(status := Sent)
      else turns[i])
  }

  // An empty identifier counts as none.
  function Adopted(current: Option<string>, given: Option<string>): Option<string> {
    if given.Some? && given.value != "" then given else current
  }

  function AfterComplete(p: Page, answer: Frame): Page
    requires answer.Complete?
  {
    if p.streamingId.None? then p.(sending := false)
    else
      p.(streamingId := None,
         sending := false,
         turns := Finished(p.turns, p.streamingId.value, answer),
         conversationId := Adopted(p.conversationId, answer.conversationId))
  }

  // Drops the empty placeholder and marks what was pending as failed.
  function Abandoned(turns: seq<Turn>, target: Option<nat>): seq<Turn> {
    if turns == [] then []
    else
      var turn := turns[0];
      (if target == Some(turn.id) && turn.text == "" then []
       else [if turn.status == Pending then turn.(status := Failed) else turn])
      + Abandoned(turns[1..], target)
  }

  function AfterFail(p: Page, message: string): Page {
    p.(streamingId := None, sending := false, turns := Abandoned(p.turns, p.streamingId),
       failure := Some(Failure.Failure(ServerSide, message, true)))
  }

  function Fresh(id: nat, assistant: bool, text: string): Turn {
    Turn(id, assistant, text, Pending, assistant, [], false, None, None)
  }

  // `captured` is the `sending` of the render that called; a later render may know better.
  predicate Accepts(text: string, captured: bool) {
    Strip(text) != "" && !captured
  }

  // `ask` refuses while a question is open or the socket is not; then the
  // question goes over HTTP.
  predicate Streams(p: Page) {
    p.connected && !p.awaiting
  }

  // The question on screen, before anything comes back.
  function Displayed(p: Page, trimmed: string): Page {
    p.(turns := p.turns + [Fresh(p.nextId, false, trimmed)], sending := true, nextId := p.nextId + 1,
       failure := None, authRequired := false)
  }

  // The question on the socket, with its timer.
  function Asked(p: Page): Page {
    p.(awaiting := true, asks := p.asks + 1, armed := p.armed + {p.asks}, answerTimer := Some(p.asks))
  }

  // The empty turn its answer will be streamed into.
  function Streaming(p: Page): Page {
    p.(streamingId := Some(p.nextId), turns := p.turns + [Fresh(p.nextId, true, "")], nextId := p.nextId + 1)
  }

  function AfterSend(p: Page, text: string, captured: bool): Page {
    if !Accepts(text, captured) then p
    else
      var shown := Displayed(p, Strip(text));
      if Streams(p) then Streaming(Asked(shown)) else shown.(requests := p.requests + {p.nextId})
  }

  function Marked(turns: seq<Turn>, target: nat, status: TurnStatus): (r: seq<Turn>)
    ensures |r| == |turns|
  {
    seq(|turns|, i requires 0 <= i < |turns| =>
      if turns[i].id == target then turns[i].(status := status) else turns[i])
  }

  function KindOf(status: nat): FailureKind {
    if status == 0 then Offline
    else if status == 401 then Unauthenticated
    else if status == 429 then RateLimited
    else if status >= 500 then ServerSide
    else BadRequest
  }

  // `failureFrom`
  function FailureFrom(response: Response): Failure
    requires !response.Reply?
  {
    match response
    case ApiError(status, message) =>
      Failure.Failure(KindOf(status), message, status == 0 || status == 429 || status >= 500)
    case Thrown => Failure.Failure(ServerSide, "Something went wrong. Please try again.", true)
  }

  // The HTTP request of a question ends, with a reply or without one.
  function AfterResponse(p: Page, id: nat, response: Response): Page {
    if id !in p.requests then p
    else if response.Reply? then
      p.(requests := p.requests - {id}, sending := false, nextId := p.nextId + 1,
         turns := Marked(p.turns, id, Sent) + [Replied(p.nextId, response)],
         conversationId := Adopted(p.conversationId, response.conversationId))
    else
      p.(requests := p.requests - {id}, sending := false, turns := Marked(p.turns, id, Failed),
         failure := Some(FailureFrom(response)),
         authRequired := response.ApiError? && response.status == 401)
  }

  function Replied(id: nat, reply: Response): Turn
    requires reply.Reply?
  {
    Turn(id, true, reply.text, Sent, false, reply.citations, reply.escalated, None, reply.traceId)
  }

  function AfterReset(p: Page): Page {
    p.(streamingId := None, turns := [], conversationId := None, failure := None, authRequired := false)
  }

  // -- useRealtime --------------------------------------------------------

  const DISCONNECTED := "The connection dropped before the answer arrived. Please try again."
  const TIMED_OUT := "The assistant did not answer in time. Please try again."

  function AfterSettle(p: Page): Page {
    p.(awaiting := false,
       armed := if p.answerTimer.None? then p.armed else p.armed - {p.answerTimer.value},
       answerTimer := None)
  }

  // A terminating frame clears `awaiting` but not the answer timer.
  function AfterFrame(p: Page, frame: Frame): Page {
    match frame
    case Delta(text) => if p.awaiting then AfterDelta(p, text) else p
    case Complete(_, _, _, _, _, _) => if p.awaiting then AfterComplete(p.(awaiting := false), frame) else p
    case Error(_, message) => AfterFail(p.(awaiting := false), message)
    case _ => p
  }

  function AfterClose(p: Page): Page {
    var closed := AfterSettle(p.(connected := false));
    if p.awaiting then AfterFail(closed, DISCONNECTED) else closed
  }

  function AfterTimer(p: Page, timer: nat): Page {
    var fired := p.(armed := p.armed - {timer});
    if !p.awaiting then fired else AfterFail(AfterSettle(fired), TIMED_OUT)
  }

  // -- what a page in order looks like --------------------------------------

  // The text shown so far for the open question, if its turn is still on screen.
  function Shown(p: Page): Option<string> {
    if p.streamingId.Some? && p.turns != [] then Some(p.turns[|p.turns| - 1].text) else None
  }

  ghost predicate NonePending(turns: seq<Turn>) {
    forall i :: 0 <= i < |turns| ==> turns[i].status != Pending
  }

  ghost predicate OnlyPending(turns: seq<Turn>, id: nat) {
    forall i :: 0 <= i < |turns| && turns[i].status == Pending ==> turns[i].id == id
  }

  // Sending means one question at work, over the socket or over HTTP; only its turns are
  // pending, and the one being streamed comes last.
  ghost predicate Ui(p: Page) {
    && p.sending == (p.awaiting || p.requests != {})
    && !(p.awaiting && p.requests != {})
    && (forall i :: 0 <= i < |p.turns| ==> p.turns[i].id < p.nextId)
    && (forall id :: id in p.requests ==> p.requests == {id} && id < p.nextId && OnlyPending(p.turns, id))
    && (p.streamingId.Some? ==> p.awaiting && StreamsLast(p.turns, p.streamingId.value))
    && (p.streamingId.None? && p.requests == {} ==> NonePending(p.turns))
  }

  // The turn being streamed is the last one, and no other has its identifier.
  ghost predicate StreamsLast(turns: seq<Turn>, id: nat) {
    turns != [] && turns[|turns| - 1].id == id && turns[|turns| - 1].assistant
    && forall i :: 0 <= i < |turns| - 1 ==> turns[i].id != id
  }

  lemma {:induction false} AbandonedTurns(turns: seq<Turn>, target: Option<nat>, bound: nat)
    requires forall i :: 0 <= i < |turns| ==> turns[i].id < bound
    ensures NonePending(Abandoned(turns, target))
    ensures forall i :: 0 <= i < |Abandoned(turns, target)| ==> Abandoned(turns, target)[i].id < bound
  {
    if turns != [] {
      AbandonedTurns(turns[1..], target, bound);
    }
  }

  lemma IdsAfterAppend(turns: seq<Turn>, bound: nat, more: seq<Turn>, newBound: nat)
    requires forall i :: 0 <= i < |turns| ==> turns[i].id < bound
    requires forall i :: 0 <= i < |more| ==> bound <= more[i].id < newBound
    requires bound <= newBound
    ensures forall i :: 0 <= i < |turns + more| ==> (turns + more)[i].id < newBound
    ensures |more| > 0 && (forall i :: 0 <= i < |more| - 1 ==> more[i].id != more[|more| - 1].id) ==>
              forall i :: 0 <= i < |turns + more| - 1 ==> (turns + more)[i].id != more[|more| - 1].id
  {
  }

  // A page that streams into its last turn, and has nothing else at work, is in order.
  lemma StreamingIsUi(q: Page, turns: seq<Turn>, question: Turn, reply: Turn)
    requires q.sending && q.awaiting && q.requests == {} && q.streamingId == Some(reply.id)
    requires q.turns == turns + [question, reply] && reply.assistant && question.id < reply.id < q.nextId
    requires forall i :: 0 <= i < |turns| ==> turns[i].id < question.id
    ensures Ui(q) && Shown(q) == Some(reply.text)
  {
    IdsAfterAppend(turns, question.id, [question, reply], q.nextId);
    StreamedTurns(turns, question, reply);
  }

  lemma StreamKeepsUi(p: Page, text: string)
    requires Ui(p) && !p.sending && Streams(p) && Accepts(text, false)
    ensures Ui(AfterSend(p, text, false))
    ensures Shown(AfterSend(p, text, false)) == Some("")
  {
    var question, reply := Fresh(p.nextId, false, Strip(text)), Fresh(p.nextId + 1, true, "");
    var q := AfterSend(p, text, false);
    assert q.turns == p.turns + [question, reply];
    StreamingIsUi(q, p.turns, question, reply);
  }

  lemma StreamedTurns(turns: seq<Turn>, question: Turn, reply: Turn)
    requires reply.assistant && question.id != reply.id
    requires forall i :: 0 <= i < |turns + [question, reply]| - 1 ==> (turns + [question, reply])[i].id != reply.id
    ensures StreamsLast(turns + [question, reply], reply.id)
  {
  }

  lemma RequestKeepsUi(p: Page, text: string)
    requires Ui(p) && !p.sending && !Streams(p) && Accepts(text, false)
    ensures Ui(AfterSend(p, text, false))
    ensures Shown(AfterSend(p, text, false)) == Shown(p)
  {
    IdsAfterAppend(p.turns, p.nextId, [Fresh(p.nextId, false, Strip(text))], p.nextId + 1);
  }

  lemma SendKeepsUi(p: Page, text: string)
    requires Ui(p)
    ensures Ui(AfterSend(p, text, p.sending))
    ensures var after := AfterSend(p, text, p.sending);
            if Accepts(text, p.sending) && Streams(p)
            then after.awaiting && after.asks == p.asks + 1 && Shown(after) == Some("")
            else after.awaiting == p.awaiting && after.asks == p.asks && Shown(after) == Shown(p)
  {
    if Accepts(text, p.sending) {
      if Streams(p) {
        StreamKeepsUi(p, text);
      } else {
        RequestKeepsUi(p, text);
      }
    }
  }

  lemma StaleSendBreaksUi(p: Page, text: string)
    requires Ui(p) && p.sending && Accepts(text, false)
    ensures !Ui(AfterSend(p, text, false))
  {
    var after := AfterSend(p, text, false);
    if !Streams(p) && !p.awaiting {
      var id :| id in p.requests;
      assert id in after.requests && p.nextId in after.requests && id < p.nextId;
    }
  }

  // A send leaves a page in order exactly unless it is accepted on the word of an older
  // render while a question is at work: then two questions are.
  lemma SendKeepsUiExactly(p: Page, text: string, captured: bool)
    requires Ui(p)
    ensures Ui(AfterSend(p, text, captured)) <==> !(Accepts(text, captured) && p.sending)
  {
    if Accepts(text, captured) {
      if p.sending {
        StaleSendBreaksUi(p, text);
      } else {
        SendKeepsUi(p, text);
      }
    }
  }

  lemma DeltaKeepsUi(p: Page, text: string)
    requires Ui(p)
    ensures Ui(AfterDelta(p, text))
    ensures Shown(AfterDelta(p, text)) == if Shown(p).Some? then Some(Shown(p).value + text) else None
  {
  }

  // The final text replaces whatever was shown.
  lemma CompleteKeepsUi(p: Page, answer: Frame)
    requires Ui(p) && p.awaiting && answer.Complete?
    ensures var after := AfterComplete(p.(awaiting := false), answer);
            && Ui(after) && NonePending(after.turns)
            && (p.streamingId.Some? ==>
                  |after.turns| == |p.turns| && after.turns[|p.turns| - 1].text == answer.text)
  {
  }

  lemma FailKeepsUi(p: Page, message: string)
    requires Ui(p) && p.requests == {}
    ensures var after := AfterFail(p.(awaiting := false), message);
            Ui(after) && NonePending(after.turns)
  {
    AbandonedTurns(p.turns, p.streamingId, p.nextId);
  }

  lemma ResponseKeepsUi(p: Page, id: nat, response: Response)
    requires Ui(p) && id in p.requests
    ensures var after := AfterResponse(p, id, response);
            Ui(after) && !after.sending && NonePending(after.turns)
  {
    assert p.requests - {id} == {};
  }

  // A frame leaves a page in order exactly unless it is an Error that arrives while a
  // question is at work over HTTP: that question then counts as failed and may yet be answered.
  lemma FrameKeepsUi(p: Page, frame: Frame)
    requires Ui(p)
    ensures Ui(AfterFrame(p, frame)) <==> !(frame.Error? && p.requests != {})
  {
    match frame
    case Delta(text) => DeltaKeepsUi(p, text);
    case Complete(_, _, _, _, _, _) =>
      if p.awaiting {
        CompleteKeepsUi(p, frame);
      }
    case Error(_, message) =>
      if p.requests == {} {
        FailKeepsUi(p, message);
      }
    case _ =>
  }

  lemma CloseKeepsUi(p: Page)
    requires Ui(p)
    ensures Ui(AfterClose(p)) && (p.awaiting ==> NonePending(AfterClose(p).turns))
  {
    AbandonedTurns(p.turns, p.streamingId, p.nextId);
  }

  lemma TimerKeepsUi(p: Page, timer: nat)
    requires Ui(p)
    ensures Ui(AfterTimer(p, timer)) && (p.awaiting ==> NonePending(AfterTimer(p, timer).turns))
  {
    AbandonedTurns(p.turns, p.streamingId, p.nextId);
  }

  // -- the hooks as they run ----------------------------------------------

  class Hooks {
    var connected: bool
    var awaiting: bool
    var asks: nat
    var armed: set<nat>
    var answerTimer: Option<nat>
    var streamingId: Option<nat>
    var turns: seq<Turn>
    var sending: bool
    var requests: set<nat>
    var nextId: nat
    var conversationId: Option<string>
    var failure: Option<Failure>
    var authRequired: bool

    ghost function State(): Page
      reads this
    {
      Page(connected, awaiting, asks, armed, answerTimer, streamingId, turns, sending, requests, nextId,
           conversationId, failure, authRequired)
    }

    ghost predicate Valid()
      reads this
    {
      Ui(State())
    }

    constructor ()
      ensures State() == BLANK && Valid()
    {
      connected, awaiting, asks, armed, answerTimer := false, false, 0, {}, None;
      streamingId, turns, sending, requests, nextId := None, [], false, {}, 0;
      conversationId, failure, authRequired := None, None, false;
    }

    method NextTurnId() returns (id: nat)
      modifies this`nextId
      ensures id == old(nextId) && nextId == id + 1
    {
      id := nextId;
      nextId := nextId + 1;
    }

    method Settle()
      modifies this
      ensures State() == AfterSettle(old(State()))
      ensures !awaiting && answerTimer.None? && armed <= old(armed)
      ensures old(answerTimer).Some? ==> old(answerTimer).value !in armed
    {
      awaiting := false;
      if answerTimer.Some? {
        armed := armed - {answerTimer.value};
        answerTimer := None;
      }
    }

    // What is shown for the open question grows by the text, and nothing else changes.
    method AppendDelta(text: string)
      modifies this
      ensures State() == AfterDelta(old(State()), text)
      ensures old(Valid()) ==> Valid()
      ensures old(Valid() && Shown(State()).Some?) ==> Shown(State()) == Some(old(Shown(State())).value + text)
    {
      if Valid() {
        DeltaKeepsUi(State(), text);
      }
      if streamingId.None? {
        return;
      }
      turns := WithText(turns, streamingId.value, text);
    }

    // Called once `awaiting` is cleared: the page is in order again and nothing is pending.
    method CompleteStream(answer: Frame)
      requires answer.Complete?
      modifies this
      ensures State() == AfterComplete(old(State()), answer)
      ensures old(!awaiting && Ui(State().(awaiting := true))) ==> Valid() && NonePending(turns)
    {
      if !awaiting && Ui(State().(awaiting := true)) {
        CompleteKeepsUi(State().(awaiting := true), answer);
      }
      var target := streamingId;
      streamingId := None;
      sending := false;
      if target.None? {
        return;
      }
      turns := Finished(turns, target.value, answer);
      conversationId := Adopted(conversationId, answer.conversationId);
    }

    method FailStream(message: string)
      modifies this
      ensures State() == AfterFail(old(State()), message)
      ensures old(!awaiting && Ui(State().(awaiting := true))) ==> Valid() && NonePending(turns)
    {
      if !awaiting && Ui(State().(awaiting := true)) {
        FailKeepsUi(State().(awaiting := true), message);
      }
      var target := streamingId;
      streamingId := None;
      sending := false;
      failure := Some(Failure.Failure(ServerSide, message, true));
      turns := Abandoned(turns, target);
    }

    // Returns false when the caller must fall back to HTTP.
    method Ask() returns (sent: bool)
      modifies this
      ensures sent == Streams(old(State()))
      ensures State() == if sent then Asked(old(State())) else old(State())
      ensures old(awaiting) ==> !sent
      ensures sent ==> awaiting && answerTimer == Some(old(asks)) && old(asks) in armed && asks == old(asks) + 1
    {
      if awaiting || !connected {
        return false;
      }
      awaiting := true;
      armed := armed + {asks};
      answerTimer := Some(asks);
      asks := asks + 1;
      sent := true;
    }

    method Display(trimmed: string) returns (pendingId: nat)
      modifies this
      ensures State() == Displayed(old(State()), trimmed) && pendingId == old(nextId)
    {
      pendingId := NextTurnId();
      turns := turns + [Fresh(pendingId, false, trimmed)];
      sending := true;
      failure := None;
      authRequired := false;
    }

    method StartStreaming()
      modifies this
      ensures State() == Streaming(old(State()))
    {
      var replyId := NextTurnId();
      streamingId := Some(replyId);
      turns := turns + [Fresh(replyId, true, "")];
    }

    method Send(text: string, captured: bool)
      modifies this
      ensures State() == AfterSend(old(State()), text, captured)
      ensures old(Valid()) ==> (Valid() <==> !(Accepts(text, captured) && old(sending)))
    {
      if Valid() {
        SendKeepsUiExactly(State(), text, captured);
      }
      var trimmed := Strip(text);
      if trimmed == "" || captured {
        return;
      }
      var pendingId := Display(trimmed);
      var streamed := Ask();
      if streamed {
        StartStreaming();
      } else {
        requests := requests + {pendingId};
      }
    }

    method OnMessage(frame: Frame)
      modifies this
      ensures State() == AfterFrame(old(State()), frame)
      ensures old(Valid()) ==> (Valid() <==> !(frame.Error? && old(requests) != {}))
    {
      if Valid() {
        FrameKeepsUi(State(), frame);
      }
      match frame
      case Delta(text) =>
        if awaiting {
          AppendDelta(text);
        }
      case Complete(_, _, _, _, _, _) =>
        if awaiting {
          awaiting := false;
          CompleteStream(frame);
        }
      case Error(_, message) =>
        awaiting := false;
        FailStream(message);
      case _ =>
    }

    method OnResponse(id: nat, response: Response)
      modifies this
      ensures State() == AfterResponse(old(State()), id, response)
      ensures old(Valid()) && id in old(requests) ==> Valid() && !sending && NonePending(turns)
    {
      if Valid() && id in requests {
        ResponseKeepsUi(State(), id, response);
      }
      if id !in requests {
        return;
      }
      if response.Reply? {
        var replyId := NextTurnId();
        turns := Marked(turns, id, Sent) + [Replied(replyId, response)];
        conversationId := Adopted(conversationId, response.conversationId);
      } else {
        turns := Marked(turns, id, Failed);
        authRequired := response.ApiError? && response.status == 401;
        failure := Some(FailureFrom(response));
      }
      sending := false;
      requests := requests - {id};
    }

    method OnClose()
      modifies this
      ensures State() == AfterClose(old(State()))
      ensures old(Valid()) ==> Valid() && (old(awaiting) ==> NonePending(turns))
    {
      if Valid() {
        CloseKeepsUi(State());
      }
      connected := false;
      var wasAwaiting := awaiting;
      Settle();
      if wasAwaiting {
        FailStream(DISCONNECTED);
      }
    }

    method OnTimer(timer: nat)
      modifies this
      ensures State() == AfterTimer(old(State()), timer)
      ensures old(Valid()) ==> Valid() && (old(awaiting) ==> NonePending(turns))
    {
      if Valid() {
        TimerKeepsUi(State(), timer);
      }
      armed := armed - {timer};
      if !awaiting {
        return;
      }
      Settle();
      FailStream(TIMED_OUT);
    }

    method Reset()
      modifies this
      ensures State() == AfterReset(old(State()))
      ensures old(Valid()) ==> Valid()
    {
      streamingId := None;
      conversationId := None;
      turns := [];
      failure := None;
      authRequired := false;
    }
  }
}
