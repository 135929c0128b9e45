// What a page shows once the frames of an answer have arrived, and which conversation its
// questions go to: the server's frames (backend/app/realtime/answers.py) read by the page's
// hooks (frontend/src/realtime/useRealtime.ts, frontend/src/conversation/useConversation.ts).
module Reading {
  import opened Frames
  import opened Answers
  import opened Page
  import opened Realtime
  import opened Text
  import opened Wrappers

  function Received(p: Page, frames: seq<Frame>): Page
    decreases |frames|
  {
    if frames == [] then p else Received(AfterFrame(p, frames[0]), frames[1..])
  }

  // A page in order whose question is open and whose answer is being streamed in.
  ghost predicate Streamed(p: Page) {
    Ui(p) && p.awaiting && p.streamingId.Some?
  }

  // The last turn with its text replaced.
  function LastReads(p: Page, text: string): Page
    requires p.turns != []
  {
    var n := |p.turns| - 1;
    p.(turns := p.turns[..n] + [p.turns[n].(text := text)])
  }

  lemma DeltaIsRead(p: Page, text: string)
    requires Streamed(p)
    ensures AfterFrame(p, Delta(text)) == LastReads(p, Shown(p).value + text)
    ensures Streamed(LastReads(p, Shown(p).value + text))
  {
    assert AfterFrame(p, Delta(text)).turns == LastReads(p, Shown(p).value + text).turns;
    DeltaKeepsUi(p, text);
  }

  lemma {:induction false} DeltasAreRead(p: Page, pieces: seq<string>, rest: seq<Frame>)
    requires Streamed(p)
    ensures var read := LastReads(p, Shown(p).value + Flat(pieces));
            Streamed(read) && Received(p, Deltas(pieces) + rest) == Received(read, rest)
    decreases |pieces|
  {
    if pieces == [] {
      assert Deltas(pieces) + rest == rest;
      var n := |p.turns| - 1;
      assert Shown(p).value + [] == p.turns[n].text;
      assert LastReads(p, Shown(p).value + []).turns == p.turns;
    } else {
      var next := LastReads(p, Shown(p).value + pieces[0]);
      DeltaIsRead(p, pieces[0]);
      DeltasAreRead(next, pieces[1..], rest);
      assert (Deltas(pieces) + rest)[1..] == Deltas(pieces[1..]) + rest;
      assert Shown(p).value + Flat(pieces) == Shown(p).value + pieces[0] + Flat(pieces[1..]);
      assert LastReads(next, Shown(p).value + Flat(pieces)) == LastReads(p, Shown(p).value + Flat(pieces));
    }
  }

  // The turn as it stands when nothing is pending any more.
  function Ended(turn: Turn, status: TurnStatus): Turn {
    if turn.status == Pending then turn.(status := status) else turn
  }

  // The answer is in the turn it was streamed into; every other turn is as it was, and sent.
  ghost predicate ShowsAnswer(p: Page, q: Page, text: string, citations: seq<string>, escalated: bool, grounded: bool) {
    && |q.turns| == |p.turns| > 0
    && (forall i :: 0 <= i < |p.turns| - 1 ==> q.turns[i] == Ended(p.turns[i], Sent))
    && q.failure == p.failure
    && var was := p.turns[|p.turns| - 1];
       q.turns[|p.turns| - 1] ==
         Turn(was.id, true, text, Sent, false, citations, escalated, Some(grounded), was.traceId)
  }

  // A page that has its answer, or knows that there is none, is free for the next question.
  ghost predicate Free(p: Page) {
    Ui(p) && !p.awaiting && !p.sending && p.streamingId.None? && NonePending(p.turns)
  }

  lemma CompleteIsRead(p: Page, answer: Frame)
    requires Streamed(p) && answer.Complete?
    ensures var q := AfterFrame(p, answer);
            && Free(q) && ShowsAnswer(p, q, answer.text, answer.citations, answer.escalated, answer.grounded)
            && q.conversationId == (if answer.conversationId.Some? && answer.conversationId.value != ""
                                    then answer.conversationId else p.conversationId)
  {
    CompleteKeepsUi(p, answer);
  }

  lemma LastFrameIsRead(p: Page, last: Frame)
    ensures Received(p, [last]) == AfterFrame(p, last)
  {
    assert [last][1..] == [];
  }

  lemma StreamIsRead(p: Page, pieces: seq<string>, answer: Frame)
    requires Streamed(p) && answer.Complete?
    ensures var q := Received(p, Deltas(pieces) + [answer]);
            && Free(q) && ShowsAnswer(p, q, answer.text, answer.citations, answer.escalated, answer.grounded)
            && q.conversationId == (if answer.conversationId.Some? && answer.conversationId.value != ""
                                    then answer.conversationId else p.conversationId)
  {
    DeltasAreRead(p, pieces, [answer]);
    var read := LastReads(p, Shown(p).value + Flat(pieces));
    LastFrameIsRead(read, answer);
    CompleteIsRead(read, answer);
  }

  // A grounded reply reaches the reader whole: text, sources and whether a person was asked.
  lemma ReplyIsRead(p: Page, outcome: Outcome, conversation: Option<string>, pieces: seq<string>)
    requires Streamed(p) && outcome.Replied? && CutOf(outcome, pieces)
    ensures var q := Received(p, AnswerFrames(outcome, conversation, pieces));
            && Free(q) && ShowsAnswer(p, q, outcome.text, outcome.citations, outcome.escalated, true)
            && q.conversationId == (if conversation.Some? && conversation.value != ""
                                    then conversation else p.conversationId)
  {
    var frames := AnswerFrames(outcome, conversation, pieces);
    StreamIsRead(p, pieces, frames[|pieces|]);
    assert frames == Deltas(pieces) + [frames[|pieces|]];
  }

  // So does prose that was streamed and recorded, without sources.
  lemma ProseIsRead(p: Page, prose: Prose, conversation: Option<string>)
    requires Streamed(p) && prose.stream.Finished?
    requires conversation.Some? ==> prose.question.Taken? && prose.answer.Taken?
    ensures var q := Received(p, ProseFrames(prose, conversation));
            && Free(q) && ShowsAnswer(p, q, Flat(prose.pieces), [], false, false)
            && q.conversationId == (if conversation.Some? && conversation.value != ""
                                    then conversation else p.conversationId)
  {
    var last := Whole(prose.pieces, conversation);
    assert ProseFrames(prose, conversation) == Deltas(prose.pieces) + [last];
    StreamIsRead(p, prose.pieces, last);
  }

  // The failure is shown; an answer of which nothing came leaves no turn, one that had begun
  // stays as failed, and so does the question.
  ghost predicate ShowsFailure(p: Page, q: Page, text: string, message: string)
    requires p.turns != []
  {
    var n := |p.turns| - 1;
    && q.failure == Some(Failure.Failure(ServerSide, message, true))
    && |q.turns| == (if text == "" then n else n + 1)
    && (forall i :: 0 <= i < n ==> q.turns[i] == Ended(p.turns[i], TurnStatus.Failed))
    && (text != "" ==> q.turns[n] == Ended(p.turns[n].(text := text), TurnStatus.Failed))
    && q.conversationId == p.conversationId
  }

  lemma {:induction false} AbandonedIsEnded(turns: seq<Turn>, id: nat)
    requires turns != [] && StreamsLast(turns, id)
    ensures var n, left := |turns| - 1, Abandoned(turns, Some(id));
            && |left| == (if turns[n].text == "" then n else n + 1)
            && (forall i :: 0 <= i < n ==> left[i] == Ended(turns[i], TurnStatus.Failed))
            && (turns[n].text != "" ==> left[n] == Ended(turns[n], TurnStatus.Failed))
    decreases |turns|
  {
    assert Abandoned([], Some(id)) == [];
    if |turns| > 1 {
      AbandonedIsEnded(turns[1..], id);
    } else {
      assert turns[1..] == [];
    }
  }

  lemma ErrorIsRead(p: Page, code: string, message: string)
    requires Streamed(p)
    ensures var q := AfterFrame(p, Error(code, message));
            Free(q) && ShowsFailure(p, q, Shown(p).value, message)
  {
    FailKeepsUi(p, message);
    AbandonedIsEnded(p.turns, p.streamingId.value);
  }

  lemma BrokenStreamIsRead(p: Page, pieces: seq<string>, code: string, message: string)
    requires Streamed(p)
    ensures var q := Received(p, Deltas(pieces) + [Error(code, message)]);
            Free(q) && ShowsFailure(p, q, Shown(p).value + Flat(pieces), message)
  {
    DeltasAreRead(p, pieces, [Error(code, message)]);
    var read := LastReads(p, Shown(p).value + Flat(pieces));
    LastFrameIsRead(read, Error(code, message));
    ErrorIsRead(read, code, message);
  }

  // A refusal is read in the application's words, and any other failure in fixed ones.
  lemma RefusalIsRead(p: Page, outcome: Outcome, conversation: Option<string>, pieces: seq<string>)
    requires Streamed(p) && Shown(p) == Some("") && !outcome.Replied?
    ensures var q := Received(p, AnswerFrames(outcome, conversation, pieces));
            && Free(q)
            && ShowsFailure(p, q, "",
                 if outcome.Refused? then outcome.message else "The answer could not be completed.")
  {
    var frames := AnswerFrames(outcome, conversation, pieces);
    LastFrameIsRead(p, frames[0]);
    ErrorIsRead(p, frames[0].code, frames[0].message);
  }

  // A provider that fails on the way leaves what it had streamed, as failed.
  lemma BrokenProseIsRead(p: Page, prose: Prose, conversation: Option<string>)
    requires Streamed(p) && prose.stream.Failed? && !Refuses(prose, conversation)
    ensures var q := Received(p, ProseFrames(prose, conversation));
            Free(q) && ShowsFailure(p, q, Shown(p).value + Flat(prose.pieces), "The answer could not be completed.")
  {
    BrokenStreamIsRead(p, prose.pieces, prose.stream.code, "The answer could not be completed.");
  }

  // What the reader is told when a turn of prose is not recorded: the application's own words
  // where it has any.
  ghost predicate TellsWhy(recording: Recording, code: string, message: string) {
    match recording
    case Taken => false
    case Rejected(given, words) => code == given && message == words
    case NoRecorder =>
      code == "realtime_conversations_unavailable" && message == "This connection cannot record conversations."
    case Lost => code == "realtime_turn_not_recorded" && message == "The exchange could not be recorded."
  }

  lemma ReportTellsWhy(recording: Recording)
    requires !recording.Taken?
    ensures var report := Report(recording);
            |report| == 1 && report[0].Error? && TellsWhy(recording, report[0].code, report[0].message)
  {
  }

  // A question that is not recorded is not answered, and the reader is told why.
  lemma RefusedProseIsRead(p: Page, prose: Prose, conversation: Option<string>)
    requires Streamed(p) && Refuses(prose, conversation)
    ensures var frames := ProseFrames(prose, conversation);
            var q := Received(p, frames);
            && |frames| == 1 && frames[0].Error? && TellsWhy(prose.question, frames[0].code, frames[0].message)
            && Free(q) && ShowsFailure(p, q, Shown(p).value, frames[0].message)
  {
    ReportTellsWhy(prose.question);
    var report := Report(prose.question);
    LastFrameIsRead(p, report[0]);
    ErrorIsRead(p, report[0].code, report[0].message);
  }

  lemma AfterTheError(p: Page, error: Frame, complete: Frame)
    requires error.Error? && complete.Complete?
    ensures Received(p, [error, complete]) == AfterFrame(p, error)
  {
    assert [error, complete][1..] == [complete];
    LastFrameIsRead(AfterFrame(p, error), complete);
  }

  lemma BrokenThenComplete(p: Page, pieces: seq<string>, error: Frame, complete: Frame)
    requires Streamed(p) && error.Error? && complete.Complete?
    ensures var q := Received(p, Deltas(pieces) + [error, complete]);
            Free(q) && ShowsFailure(p, q, Shown(p).value + Flat(pieces), error.message)
  {
    DeltasAreRead(p, pieces, [error, complete]);
    var read := LastReads(p, Shown(p).value + Flat(pieces));
    AfterTheError(read, error, complete);
    ErrorIsRead(read, error.code, error.message);
  }

  // Prose that was streamed whole but not recorded ends twice: the reader is told why, keeps the
  // text as failed, and the Complete frame that follows changes nothing.
  lemma UnrecordedProseIsRead(p: Page, prose: Prose, conversation: Option<string>)
    requires Streamed(p) && conversation.Some? && prose.question.Taken? && prose.stream.Finished?
    requires !prose.answer.Taken?
    ensures var q, told := Received(p, ProseFrames(prose, conversation)), Report(prose.answer);
            && |told| == 1 && told[0].Error? && TellsWhy(prose.answer, told[0].code, told[0].message)
            && Free(q) && ShowsFailure(p, q, Shown(p).value + Flat(prose.pieces), told[0].message)
  {
    ReportTellsWhy(prose.answer);
    var error, last := Report(prose.answer)[0], Whole(prose.pieces, conversation);
    assert ProseFrames(prose, conversation) == Deltas(prose.pieces) + [error, last];
    BrokenThenComplete(p, prose.pieces, error, last);
  }

  function FramesOf(ts: seq<Tagged>): (frames: seq<Frame>)
    ensures |frames| == |ts| && forall i :: 0 <= i < |ts| ==> frames[i] == ts[i].frame
  {
    seq(|ts|, i requires 0 <= i < |ts| => ts[i].frame)
  }

  // What the reader gets for a question: one that passes validation reads as its answer, in the
  // question's own conversation, and any other as malformed, however the pipeline would end.
  lemma QuestionIsAnswered(p: Page, question: Question, outcome: Outcome, pieces: seq<string>)
    requires Streamed(p) && Shown(p) == Some("") && CutOf(outcome, pieces)
    ensures var q := Received(p, FramesOf(Served(question, outcome, pieces)));
            && Free(q)
            && (if !(1 <= |question.text| <= MAX_QUESTION_LENGTH) then ShowsFailure(p, q, "", MALFORMED.message)
                else if outcome.Replied?
                then ShowsAnswer(p, q, outcome.text, outcome.citations, outcome.escalated, true)
                else if outcome.Refused? then ShowsFailure(p, q, "", outcome.message)
                else ShowsFailure(p, q, "", FAILED.message))
  {
    var frames := FramesOf(Served(question, outcome, pieces));
    if ValidQuestion(question.text) {
      assert frames == AnswerFrames(outcome, question.conversation, pieces);
      if outcome.Replied? {
        ReplyIsRead(p, outcome, question.conversation, pieces);
      } else {
        RefusalIsRead(p, outcome, question.conversation, pieces);
      }
    } else {
      assert frames == [MALFORMED];
      LastFrameIsRead(p, MALFORMED);
      ErrorIsRead(p, MALFORMED.code, MALFORMED.message);
    }
  }

  // -- what a Complete frame says of its answer -------------------------------

  function TextOf(frames: seq<Frame>): string {
    if frames == [] then "" else (if frames[0].Delta? then frames[0].text else "") + TextOf(frames[1..])
  }

  function DeltaCount(frames: seq<Frame>): nat {
    if frames == [] then 0 else (if frames[0].Delta? then 1 else 0) + DeltaCount(frames[1..])
  }

  lemma {:induction false} DeltasSumUp(pieces: seq<string>, rest: seq<Frame>)
    ensures TextOf(Deltas(pieces) + rest) == Flat(pieces) + TextOf(rest)
    ensures DeltaCount(Deltas(pieces) + rest) == |pieces| + DeltaCount(rest)
  {
    if pieces == [] {
      assert Deltas(pieces) + rest == rest;
    } else {
      assert (Deltas(pieces) + rest)[1..] == Deltas(pieces[1..]) + rest;
      DeltasSumUp(pieces[1..], rest);
    }
  }

  lemma NoMoreDeltas(frames: seq<Frame>)
    requires |frames| <= 2 && forall i :: 0 <= i < |frames| ==> !frames[i].Delta?
    ensures TextOf(frames) == "" && DeltaCount(frames) == 0
  {
    if frames != [] {
      assert frames[1..] != [] ==> frames[1..][1..] == [];
    }
  }

  // A Complete frame comes last, its text is that of the deltas before it, and it counts them;
  // a refusal is the one frame of its answer, under the application's own code.
  lemma CompleteSumsUp(outcome: Outcome, conversation: Option<string>, pieces: seq<string>)
    requires CutOf(outcome, pieces)
    ensures var frames := AnswerFrames(outcome, conversation, pieces);
            var last := frames[|frames| - 1];
            && (outcome.Replied? <==> last.Complete?)
            && (outcome.Replied? ==>
                  last.text == TextOf(frames) == outcome.text && last.deltas == DeltaCount(frames) == |frames| - 1)
            && (outcome.Refused? ==> frames == [Error(outcome.code, outcome.message)])
  {
    var frames := AnswerFrames(outcome, conversation, pieces);
    if outcome.Replied? {
      var last := frames[|frames| - 1];
      assert frames == Deltas(pieces) + [last];
      DeltasSumUp(pieces, [last]);
      NoMoreDeltas([last]);
    }
  }

  lemma TailSumsUp(pieces: seq<string>, tail: seq<Frame>)
    requires |tail| <= 2 && forall i :: 0 <= i < |tail| ==> !tail[i].Delta?
    ensures TextOf(Deltas(pieces) + tail) == Flat(pieces) && DeltaCount(Deltas(pieces) + tail) == |pieces|
  {
    DeltasSumUp(pieces, tail);
    NoMoreDeltas(tail);
  }

  // So does the Complete frame of prose, and a provider's failure comes last, under its code.
  lemma ProseSumsUp(prose: Prose, conversation: Option<string>)
    requires !Refuses(prose, conversation)
    ensures var frames := ProseFrames(prose, conversation);
            && (prose.stream.Finished? <==> frames != [] && frames[|frames| - 1].Complete?)
            && (prose.stream.Finished? ==>
                  var last := frames[|frames| - 1];
                  last.text == TextOf(frames) && last.deltas == DeltaCount(frames) == |prose.pieces|)
            && (prose.stream.Failed? ==> frames != [] && frames[|frames| - 1].Error?
                                         && frames[|frames| - 1].code == prose.stream.code)
  {
    var frames := ProseFrames(prose, conversation);
    match prose.stream
    case Finished =>
      var tail := (if conversation.Some? then Report(prose.answer) else []) + [Whole(prose.pieces, conversation)];
      assert frames == Deltas(prose.pieces) + tail;
      TailSumsUp(prose.pieces, tail);
    case _ =>
  }

  // -- what else the page does to the reader ----------------------------------

  // A question is on screen as it was typed, trimmed and pending, under a page that is sending;
  // over the socket it is followed by an empty turn for the answer.
  lemma QuestionIsShown(p: Page, text: string)
    requires Ui(p) && !p.sending && Strip(text) != ""
    ensures var q, n := AfterSend(p, text, p.sending), |p.turns|;
            && Ui(q) && q.sending && q.failure.None? && !q.authRequired && q.conversationId == p.conversationId
            && |q.turns| == n + (if p.connected then 2 else 1) && q.turns[..n] == p.turns
            && q.turns[n] == Turn(p.nextId, false, Strip(text), Pending, false, [], false, None, None)
            && (if p.connected then Streamed(q) && Shown(q) == Some("") && q.turns[n + 1].streaming
                                    && q.asks == p.asks + 1 && q.answerTimer == Some(p.asks) && p.asks in q.armed
                else q.requests == {p.nextId} && q.asks == p.asks && !q.awaiting)
  {
    SendKeepsUi(p, text);
  }

  // A reply over HTTP is added whole and its question is sent.
  lemma ResponseIsRead(p: Page, id: nat, reply: Response)
    requires Ui(p) && id in p.requests && reply.Reply?
    ensures var q, n := AfterResponse(p, id, reply), |p.turns|;
            && Free(q) && q.requests == {} && |q.turns| == n + 1 && q.failure == p.failure
            && (forall i :: 0 <= i < n ==>
                  q.turns[i] == if p.turns[i].id == id then p.turns[i].(status := Sent) else p.turns[i])
            && q.turns[n] == Turn(p.nextId, true, reply.text, Sent, false, reply.citations, reply.escalated, None,
                                  reply.traceId)
            && q.conversationId == (if reply.conversationId.Some? && reply.conversationId.value != ""
                                    then reply.conversationId else p.conversationId)
  {
    ResponseKeepsUi(p, id, reply);
  }

  // A request that fails leaves its question as failed. The reader is asked to sign in exactly
  // for a failure to authenticate, and to try again exactly where that can help.
  lemma FailedRequestIsRead(p: Page, id: nat, response: Response)
    requires Ui(p) && id in p.requests && !response.Reply?
    ensures var q, n := AfterResponse(p, id, response), |p.turns|;
            && Free(q) && q.requests == {} && |q.turns| == n && q.failure.Some?
            && (forall i :: 0 <= i < n ==>
                  q.turns[i] == if p.turns[i].id == id then p.turns[i].(status := TurnStatus.Failed) else p.turns[i])
            && q.conversationId == p.conversationId
            && var failure := q.failure.value;
               && (q.authRequired <==> failure.kind == Unauthenticated)
               && (failure.retryable <==> failure.kind !in {Unauthenticated, BadRequest})
               && (response.ApiError? ==>
                     && failure.message == response.message
                     && (failure.kind == Offline <==> response.status == 0)
                     && (failure.kind == Unauthenticated <==> response.status == 401)
                     && (failure.kind == RateLimited <==> response.status == 429)
                     && (failure.kind == ServerSide <==> response.status >= 500))
               && (response.Thrown? ==> failure.kind == ServerSide)
  {
    ResponseKeepsUi(p, id, response);
  }

  // A close, or a timer that fires while a question is open, fails that question and frees the
  // page; neither touches anything on screen when none is open.
  ghost predicate GivesUpOn(p: Page, q: Page, message: string) {
    && !q.awaiting
    && (p.awaiting ==> q.answerTimer.None? && Free(q) && q.failure == Some(Failure.Failure(ServerSide, message, true)))
    && (Streamed(p) ==> ShowsFailure(p, q, Shown(p).value, message))
    && (!p.awaiting ==> q.turns == p.turns && q.failure == p.failure && q.sending == p.sending)
    && q.requests == p.requests && q.asks == p.asks && q.conversationId == p.conversationId
  }

  lemma CloseIsRead(p: Page)
    requires Ui(p)
    ensures !AfterClose(p).connected && GivesUpOn(p, AfterClose(p), DISCONNECTED)
    ensures AfterClose(p).answerTimer.None? && AfterClose(p).armed <= p.armed
    ensures p.answerTimer.Some? ==> p.answerTimer.value !in AfterClose(p).armed
  {
    CloseKeepsUi(p);
    if Streamed(p) {
      AbandonedIsEnded(p.turns, p.streamingId.value);
    }
  }

  lemma TimerIsRead(p: Page, timer: nat)
    requires Ui(p)
    ensures AfterTimer(p, timer).connected == p.connected && GivesUpOn(p, AfterTimer(p, timer), TIMED_OUT)
    ensures timer !in AfterTimer(p, timer).armed
  {
    TimerKeepsUi(p, timer);
    if Streamed(p) {
      AbandonedIsEnded(p.turns, p.streamingId.value);
    }
  }

  // Starting over forgets what was said, but not that a question is at work.
  lemma ResetIsRead(p: Page)
    requires Ui(p)
    ensures var q := AfterReset(p);
            && Ui(q) && q.turns == [] && q.conversationId.None? && q.failure.None? && !q.authRequired
            && q.streamingId.None? && q.sending == p.sending && q.awaiting == p.awaiting && q.requests == p.requests
            && q.armed == p.armed && q.answerTimer == p.answerTimer && q.connected == p.connected
  {
  }

  // -- which conversation a question goes to ----------------------------------

  // The conversation the last reply over HTTP named, since the reader last started over.
  function GivenBy(actions: seq<Action>): Option<string> {
    if actions == [] then None
    else
      var before, last := GivenBy(actions[..|actions| - 1]), actions[|actions| - 1];
      match last
      case Clear => None
      case Respond(_, Reply(_, conversation, _, _, _)) =>
        if conversation.Some? && conversation.value != "" then conversation else before
      case _ => before
  }

  ghost predicate NamesOnly(ts: seq<Tagged>, conversation: Option<string>) {
    forall i :: 0 <= i < |ts| && ts[i].frame.Complete? ==> ts[i].frame.conversationId == conversation
  }

  // Every question and every Complete under way names this conversation.
  ghost predicate CarriesAll(s: System, conversation: Option<string>) {
    && (forall i :: 0 <= i < |s.toServer| ==> s.toServer[i].conversation == conversation)
    && NamesOnly(s.outbox, conversation) && NamesOnly(s.toClient, conversation)
  }

  lemma {:induction false} NothingNamed(ts: seq<Tagged>, conversation: Option<string>)
    requires Answering(ts) == []
    ensures NamesOnly(ts, conversation)
  {
    if ts != [] {
      NothingNamed(ts[1..], conversation);
    }
  }

  lemma QuietCarriesAny(s: System, conversation: Option<string>)
    requires Quiet(s)
    ensures CarriesAll(s, conversation)
  {
    assert Answering(s.toClient) == [] && s.outbox == [];
    NothingNamed(s.toClient, conversation);
  }

  // What the server makes of a question names the question's own conversation.
  lemma ServedNames(question: Question, outcome: Outcome, pieces: seq<string>)
    ensures NamesOnly(Served(question, outcome, pieces), question.conversation)
  {
  }

  ghost predicate Current(s: System, conversation: Option<string>) {
    s.page.conversationId == conversation && conversation != Some("")
  }

  // The conversation a step leaves the page with.
  function Afterwards(conversation: Option<string>, a: Action): Option<string> {
    match a
    case Clear => None
    case Respond(_, Reply(_, given, _, _, _)) => if given.Some? && given.value != "" then given else conversation
    case _ => conversation
  }

  ghost predicate Carried(s: System, conversation: Option<string>) {
    Current(s, conversation) && CarriesAll(s, conversation)
  }

  lemma RespondCarries(s: System, id: nat, response: Response, conversation: Option<string>)
    requires Possible(s, Respond(id, response)) && Quiet(s) && Current(s, conversation)
    ensures Carried(Next(s, Respond(id, response)), Afterwards(conversation, Respond(id, response)))
  {
    QuietCarriesAny(s, Afterwards(conversation, Respond(id, response)));
  }

  lemma DeliverCarries(s: System, conversation: Option<string>)
    requires Possible(s, Deliver) && Carried(s, conversation)
    ensures Carried(Next(s, Deliver), conversation)
  {
    var t := Next(s, Deliver);
    assert t.toClient == s.toClient[1..] && t.outbox == s.outbox && t.toServer == s.toServer;
  }

  lemma EmitCarries(s: System, conversation: Option<string>)
    requires Possible(s, Emit) && Carried(s, conversation)
    ensures Carried(Next(s, Emit), conversation)
  {
  }

  lemma ServeCarries(s: System, outcome: Outcome, pieces: seq<string>, conversation: Option<string>)
    requires Possible(s, Serve(outcome, pieces)) && Carried(s, conversation)
    ensures Carried(Next(s, Serve(outcome, pieces)), conversation)
  {
    ServedNames(s.toServer[0], outcome, pieces);
  }

  lemma SubmitCarries(s: System, text: string, conversation: Option<string>)
    requires Possible(s, Submit(text)) && Carried(s, conversation)
    ensures Carried(Next(s, Submit(text)), conversation)
  {
  }

  lemma CarriedOn(s: System, a: Action, conversation: Option<string>)
    requires Possible(s, a) && (s.page.requests != {} ==> Quiet(s)) && !a.Clear?
    requires Carried(s, conversation)
    ensures Carried(Next(s, a), Afterwards(conversation, a))
  {
    match a
    case Respond(id, response) => RespondCarries(s, id, response, conversation);
    case Serve(outcome, pieces) => ServeCarries(s, outcome, pieces, conversation);
    case Submit(text) => SubmitCarries(s, text, conversation);
    case Deliver => DeliverCarries(s, conversation);
    case Emit => EmitCarries(s, conversation);
    case Connect =>
    case Drop =>
    case Fire(_) =>
  }

  // While no answer is being streamed in, none that comes can change the conversation.
  lemma IgnoredMeanwhile(s: System, a: Action, conversation: Option<string>)
    requires Possible(s, a) && (s.page.requests != {} ==> Quiet(s)) && Orderly(s, a)
    requires Current(s, conversation) && s.page.streamingId.None?
    ensures var t := Next(s, a);
            Current(t, Afterwards(conversation, a)) && (t.page.streamingId.None? || CarriesAll(t, conversation))
  {
    match a
    case Submit(text) =>
      if Accepts(text, s.page.sending) && Streams(s.page) {
        QuietCarriesAny(s, conversation);
        SubmitCarries(s, text, conversation);
      }
    case _ =>
  }

  ghost predicate NoClear(r: Run) {
    forall i :: 0 <= i < |r.actions| ==> !r.actions[i].Clear?
  }

  lemma GivenByStep(actions: seq<Action>, n: nat)
    requires n < |actions|
    ensures GivenBy(actions[..n + 1]) == Afterwards(GivenBy(actions[..n]), actions[n])
  {
    assert actions[..n + 1][..n] == actions[..n];
  }

  lemma {:induction false} CarriedWithoutClear(r: Run, n: nat)
    requires IsRun(r) && r.Start() == INITIAL && NoClear(r) && n <= |r.actions|
    ensures Carried(r.states[n], GivenBy(r.actions[..n]))
  {
    if n > 0 {
      CarriedWithoutClear(r, n - 1);
      RunKeepsPage(r, n - 1);
      assert StepAt(r, n - 1);
      GivenByStep(r.actions, n - 1);
      CarriedOn(r.states[n - 1], r.actions[n - 1], GivenBy(r.actions[..n - 1]));
    }
  }

  lemma {:induction false} CarriedInOrder(r: Run, n: nat)
    requires IsOrderly(r) && r.Start() == INITIAL && n <= |r.actions|
    ensures var s, given := r.states[n], GivenBy(r.actions[..n]);
            Current(s, given) && (s.page.streamingId.None? || CarriesAll(s, given))
  {
    if n > 0 {
      var s, a, given := r.states[n - 1], r.actions[n - 1], GivenBy(r.actions[..n - 1]);
      CarriedInOrder(r, n - 1);
      InitialInv();
      RunKeepsInv(r, n - 1);
      assert StepAt(r, n - 1) && OrderlyAt(r, n - 1);
      GivenByStep(r.actions, n - 1);
      if s.page.streamingId.None? {
        IgnoredMeanwhile(s, a, given);
      } else if !a.Clear? {
        RunKeepsPage(r, n - 1);
        CarriedOn(s, a, given);
      }
    }
  }

  // In every orderly run, and in any run in which the reader never starts over, the page is in
  // the conversation that its last reply over HTTP named, none after starting over; the next
  // question goes there, trimmed, and no answer ever moves the page elsewhere.
  lemma QuestionsStayInConversation(r: Run, text: string)
    requires IsRun(r) && r.Start() == INITIAL && (IsOrderly(r) || NoClear(r))
    ensures var s, given := r.End(), GivenBy(r.actions);
            && s.page.conversationId == given
            && (s.page.streamingId.Some? ==> CarriesAll(s, given))
            && (Possible(s, Submit(text)) && Accepts(text, s.page.sending) && Streams(s.page) ==>
                  Next(s, Submit(text)).toServer == s.toServer + [Question(Strip(text), given, s.page.asks)])
  {
    var n := |r.actions|;
    assert r.actions[..n] == r.actions;
    if IsOrderly(r) {
      CarriedInOrder(r, n);
    } else {
      CarriedWithoutClear(r, n);
    }
  }

  lemma ClearedThenAsked(s: System, text: string) returns (cleared: System, asked: System)
    requires s.page.connected && !s.page.awaiting && !s.page.sending && Strip(text) != ""
    ensures Leads(s, Clear, cleared) && Leads(cleared, Submit(text), asked)
    ensures asked.page.awaiting && asked.page.asks > 0 && asked.page.streamingId.Some?
    ensures asked.toClient == s.toClient
  {
    cleared := Next(s, Clear);
    asked := Next(cleared, Submit(text));
  }

  lemma LateCompleteAdopted(s: System) returns (t: System)
    requires s.page.awaiting && s.page.asks > 0 && s.page.streamingId.Some? && s.toClient != []
    requires s.toClient[0].frame.Complete? && s.toClient[0].frame.conversationId.Some?
    requires s.toClient[0].frame.conversationId.value != ""
    ensures Leads(s, Deliver, t) && t.page.conversationId == s.toClient[0].frame.conversationId
  {
    t := Next(s, Deliver);
  }

  lemma AfterClearing(actions: seq<Action>, text: string)
    ensures GivenBy(actions + [Clear] + [Submit(text)] + [Deliver]) == None
  {
    var all := actions + [Clear] + [Submit(text)] + [Deliver];
    GivenByStep(all, |actions|);
    GivenByStep(all, |actions| + 1);
    GivenByStep(all, |actions| + 2);
    assert all[..|all|] == all;
  }

  // Otherwise it may: after a timeout, the answer of a conversation that was left takes the
  // page, and its next question, back into it.
  lemma LeftConversationReturns(r: Run, text: string) returns (t: Run)
    requires IsRun(r) && Strip(text) != ""
    requires var s := r.End();
             && s.page.connected && !s.page.awaiting && !s.page.sending && s.toClient != []
             && s.toClient[0].frame.Complete? && s.toClient[0].frame.conversationId.Some?
             && s.toClient[0].frame.conversationId.value != ""
    ensures IsRun(t) && t.Start() == r.Start() && t.actions == r.actions + [Clear] + [Submit(text)] + [Deliver]
    ensures GivenBy(t.actions) == None
    ensures t.End().page.conversationId == r.End().toClient[0].frame.conversationId
  {
    var cleared, asked := ClearedThenAsked(r.End(), text);
    var late := LateCompleteAdopted(asked);
    Extend(r, Clear, cleared);
    Extend(r.Then(Clear, cleared), Submit(text), asked);
    t := r.Then(Clear, cleared).Then(Submit(text), asked).Then(Deliver, late);
    Extend(r.Then(Clear, cleared).Then(Submit(text), asked), Deliver, late);
    AfterClearing(r.actions, text);
  }

  // A connected page in a conversation, with nothing at work and nothing under way.
  ghost predicate Talking(s: System, conversation: string) {
    && s.page.connected && !s.page.awaiting && !s.page.sending && s.page.conversationId == Some(conversation)
    && s.toServer == [] && s.outbox == [] && s.toClient == []
  }

  lemma AskedOffline(text: string) returns (t: System)
    requires Strip(text) != ""
    ensures Leads(INITIAL, Submit(text), t)
    ensures !t.page.connected && !t.page.awaiting && t.page.requests == {0} && t.page.conversationId == None
  {
    t := Next(INITIAL, Submit(text));
  }

  lemma RepliedOverHttp(s: System, conversation: string) returns (a: Action, t: System)
    requires !s.page.connected && !s.page.awaiting && 0 in s.page.requests && conversation != ""
    ensures Leads(s, a, t)
    ensures !t.page.connected && !t.page.awaiting && !t.page.sending && t.page.conversationId == Some(conversation)
  {
    a := Respond(0, Reply("", Some(conversation), [], false, None));
    t := Next(s, a);
  }

  lemma ConnectedAgain(s: System, conversation: string) returns (t: System, u: System)
    requires !s.page.connected && !s.page.awaiting && !s.page.sending && s.page.conversationId == Some(conversation)
    ensures Leads(s, Connect, t) && Leads(t, Deliver, u) && Talking(u, conversation)
  {
    t := Next(s, Connect);
    u := Next(t, Deliver);
  }

  lemma TalkingIsReached(text: string, conversation: string) returns (r: Run)
    requires Strip(text) != "" && conversation != ""
    ensures IsRun(r) && r.Start() == INITIAL && Talking(r.End(), conversation)
  {
    var asked := AskedOffline(text);
    var reply, replied := RepliedOverHttp(asked, conversation);
    var connected, ready := ConnectedAgain(replied, conversation);
    r := Still(INITIAL);
    Extend(r, Submit(text), asked);
    r := r.Then(Submit(text), asked);
    Extend(r, reply, replied);
    r := r.Then(reply, replied);
    Extend(r, Connect, connected);
    r := r.Then(Connect, connected);
    Extend(r, Deliver, ready);
    r := r.Then(Deliver, ready);
  }

  lemma AskedWhileTalking(s: System, text: string, conversation: string) returns (t: System)
    requires Talking(s, conversation) && Strip(text) != ""
    ensures Leads(s, Submit(text), t)
    ensures t.page.connected && t.page.awaiting && t.page.asks == s.page.asks + 1 && s.page.asks in t.page.armed
    ensures |t.toServer| == 1 && t.toServer[0].conversation == Some(conversation) && t.toServer[0].text == Strip(text)
    ensures t.outbox == [] && t.toClient == []
  {
    t := Next(s, Submit(text));
  }

  // Whatever the server answers with, its last frame names the conversation of the question.
  lemma AnsweredAtOnce(s: System, conversation: string) returns (serve: Action, t: System, u: System)
    requires s.page.awaiting ==> s.page.asks > 0
    requires |s.toServer| == 1 && s.toServer[0].conversation == Some(conversation) && s.outbox == [] && s.toClient == []
    requires ValidQuestion(s.toServer[0].text)
    ensures Leads(s, serve, t) && Leads(t, Emit, u) && u.page == s.page && |u.toClient| == 1
    ensures u.toClient[0].frame.Complete? && u.toClient[0].frame.conversationId == Some(conversation)
  {
    serve := Serve(Outcome.Replied("", [], false), []);
    t := Next(s, serve);
    assert t.outbox == [Tagged(Complete("", 0, Some(conversation), true, [], false), s.toServer[0].about)];
    u := Next(t, Emit);
  }

  // A run that gives up on a question, with its answer, which names the conversation, on the way.
  lemma LateAnswerIsReached(text: string, conversation: string) returns (r: Run)
    requires ValidQuestion(Strip(text)) && conversation != ""
    ensures IsRun(r) && r.Start() == INITIAL
    ensures var s := r.End();
            && s.page.connected && !s.page.awaiting && !s.page.sending && |s.toClient| == 1
            && s.toClient[0].frame.Complete? && s.toClient[0].frame.conversationId == Some(conversation)
  {
    var talking := TalkingIsReached(text, conversation);
    var asks := talking.End().page.asks;
    var asked := AskedWhileTalking(talking.End(), text, conversation);
    var serve, served, emitted := AnsweredAtOnce(asked, conversation);
    Extend(talking, Submit(text), asked);
    r := talking.Then(Submit(text), asked);
    Extend(r, serve, served);
    r := r.Then(serve, served);
    Extend(r, Emit, emitted);
    r := r.Then(Emit, emitted);
    r := ThenFire(r, asks);
  }

  // So from a blank page a run leads back into a conversation that the reader has left.
  lemma LeftConversationIsReached(text: string, conversation: string) returns (t: Run)
    requires ValidQuestion(Strip(text)) && conversation != ""
    ensures IsRun(t) && t.Start() == INITIAL
    ensures t.End().page.conversationId == Some(conversation) && GivenBy(t.actions) == None
  {
    var r := LateAnswerIsReached(text, conversation);
    t := LeftConversationReturns(r, text);
  }
}
