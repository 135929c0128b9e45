// Cutting a finished answer into deltas and sending it, one question at a time
// (backend/app/realtime/answers.py, the grounded path).
module Answers {
  import opened Frames
  import opened Text
  import opened Wrappers

  const DEFAULT_SIZE := 24

  // The length of the longest prefix of whitespace.
  function SpaceEnd(s: string): (n: nat)
    ensures n <= |s| && AllSpace(s[..n])
    ensures n < |s| ==> !IsSpace(s[n])
  {
    if s == [] || !IsSpace(s[0]) then 0 else 1 + SpaceEnd(s[1..])
  }

  // The whitespace after the first word, and what follows that.
  function Gap(s: string): (gap: string)
    requires WordEnd(s) < |s|
    ensures gap != "" && AllSpace(gap)
  {
    var tail := s[WordEnd(s)..];
    tail[..SpaceEnd(tail)]
  }

  function PastGap(s: string): (rest: string)
    requires WordEnd(s) < |s|
    ensures rest == "" || !IsSpace(rest[0])
    ensures |rest| < |s| && s == s[..WordEnd(s)] + Gap(s) + rest
  {
    var tail := s[WordEnd(s)..];
    tail[SpaceEnd(tail)..]
  }

  // `re.split(r"(\s+)", text)`: words and the whitespace between them in turn,
  // beginning and ending with a word, which may be empty.
  function Tokens(s: string): seq<string>
    decreases |s|
  {
    if WordEnd(s) == |s| then [s] else [s[..WordEnd(s)], Gap(s)] + Tokens(PastGap(s))
  }

  lemma FlatOfTwoMore(a: string, b: string, rest: seq<string>)
    ensures Flat([a, b] + rest) == a + b + Flat(rest)
  {
    FlatAppend([a, b], rest);
    assert [a, b][1..] == [b] && [b][1..] == [];
  }

  lemma {:induction false} TokensJoin(s: string)
    ensures Flat(Tokens(s)) == s
    decreases |s|
  {
    if WordEnd(s) == |s| {
      assert [s][1..] == [];
    } else {
      TokensJoin(PastGap(s));
      FlatOfTwoMore(s[..WordEnd(s)], Gap(s), Tokens(PastGap(s)));
    }
  }

  lemma FirstTokenIsWord(s: string)
    requires s == "" || !IsSpace(s[0])
    ensures |Tokens(s)| > 1 ==> Tokens(s)[0] != []
  {
  }

  // Words at even places and whitespace at odd ones; only the outermost words may be empty.
  ghost predicate TokenOk(ts: seq<string>, i: nat)
    requires i < |ts|
  {
    && (if i % 2 == 0 then NoSpace(ts[i]) else ts[i] != [] && AllSpace(ts[i]))
    && (0 < i < |ts| - 1 ==> ts[i] != [])
  }

  ghost predicate Alternate(ts: seq<string>) {
    forall i :: 0 <= i < |ts| ==> TokenOk(ts, i)
  }

  lemma TwoMoreTokens(word: string, gap: string, rest: seq<string>)
    requires NoSpace(word) && gap != [] && AllSpace(gap) && Alternate(rest)
    requires |rest| > 1 ==> rest[0] != []
    ensures Alternate([word, gap] + rest)
  {
    var ts := [word, gap] + rest;
    forall i | 0 <= i < |ts|
      ensures TokenOk(ts, i)
    {
      if i >= 2 {
        assert ts[i] == rest[i - 2] && TokenOk(rest, i - 2);
      }
    }
  }

  lemma {:induction false} TokensAlternate(s: string)
    ensures Alternate(Tokens(s))
    decreases |s|
  {
    if WordEnd(s) < |s| {
      TokensAlternate(PastGap(s));
      FirstTokenIsWord(PastGap(s));
      TwoMoreTokens(s[..WordEnd(s)], Gap(s), Tokens(PastGap(s)));
    } else {
      assert s[..WordEnd(s)] == s;
    }
  }

  // `word.isspace()`
  predicate IsBlank(s: string) {
    s != [] && AllSpace(s)
  }

  // A piece that is long enough, ends inside no word, and is followed by whitespace.
  ghost predicate GoodBreak(piece: string, next: string, size: int) {
    |piece| >= size && piece != [] && !IsSpace(piece[|piece| - 1]) && next != [] && IsSpace(next[0])
  }

  // Nowhere inside the piece was there an earlier place to break it.
  ghost predicate Unbroken(piece: string, size: int) {
    forall j :: 0 < j < |piece| && j >= size ==> NoBreakAt(piece, j)
  }

  predicate NoBreakAt(piece: string, j: int)
    requires 0 < j < |piece|
  {
    IsSpace(piece[j - 1]) || !IsSpace(piece[j])
  }

  ghost predicate EndsInWord(pieces: seq<string>) {
    pieces != [] && pieces[|pieces| - 1] != [] && !IsSpace(pieces[|pieces| - 1][|pieces[|pieces| - 1]| - 1])
  }

  // After i tokens: the pieces already cut, and the one being put together.
  ghost predicate Cutting(pieces: seq<string>, piece: string, tokens: seq<string>, i: nat, size: int)
    requires i <= |tokens|
  {
    && Flat(pieces) + piece == Flat(tokens[..i])
    && (forall k :: 0 <= k < |pieces| ==> pieces[k] != [] && |pieces[k]| >= size)
    && (forall k :: 0 < k < |pieces| ==> GoodBreak(pieces[k - 1], pieces[k], size))
    && (pieces != [] && (i < |tokens| || piece != "") ==> EndsInWord(pieces))
    && (pieces != [] && piece == "" ==> i % 2 == 1)
    && (pieces != [] && piece != "" ==> IsSpace(piece[0]))
  }

  lemma PiecesGrow(pieces: seq<string>, piece: string, size: int)
    requires piece != "" && (pieces != [] ==> EndsInWord(pieces) && IsSpace(piece[0]))
    requires forall k :: 0 <= k < |pieces| ==> |pieces[k]| >= size
    requires forall k :: 0 < k < |pieces| ==> GoodBreak(pieces[k - 1], pieces[k], size)
    ensures Flat(pieces + [piece]) == Flat(pieces) + piece
    ensures forall k :: 0 < k < |pieces + [piece]| ==>
              GoodBreak((pieces + [piece])[k - 1], (pieces + [piece])[k], size)
  {
    FlatSnoc(pieces, piece);
    forall k | 0 < k < |pieces + [piece]|
      ensures GoodBreak((pieces + [piece])[k - 1], (pieces + [piece])[k], size)
    {
      if k < |pieces| {
        assert GoodBreak(pieces[k - 1], pieces[k], size);
      }
    }
  }

  // One more token either lengthens the piece or completes it.
  lemma NextToken(pieces: seq<string>, piece: string, tokens: seq<string>, i: nat, size: int)
    requires i < |tokens| && Alternate(tokens) && size >= 1
    requires Cutting(pieces, piece, tokens, i, size)
    ensures var longer := piece + tokens[i];
            if |longer| >= size && !IsBlank(tokens[i])
            then Cutting(pieces + [longer], "", tokens, i + 1, size)
            else Cutting(pieces, longer, tokens, i + 1, size)
  {
    var token, longer := tokens[i], piece + tokens[i];
    assert tokens[..i + 1] == tokens[..i] + [token];
    FlatSnoc(tokens[..i], token);
    assert Flat(pieces) + longer == Flat(tokens[..i + 1]);
    assert TokenOk(tokens, i);
    if |longer| >= size && !IsBlank(token) {
      assert TokenOk(tokens, i) && i % 2 == 0;
      PiecesGrow(pieces, longer, size);
      if i + 1 < |tokens| {
        assert token != [] by {
          if i == 0 {
            assert Flat(tokens[..0]) == [];
          }
        }
        assert longer[|longer| - 1] == token[|token| - 1];
      }
    }
  }

  // Still to be cut: no place to break it has been passed, and its end is none.
  ghost predicate Open(piece: string, size: int) {
    Unbroken(piece, size) && (piece != "" && |piece| >= size ==> IsSpace(piece[|piece| - 1]))
  }

  ghost predicate AllUnbroken(pieces: seq<string>, size: int) {
    forall k :: 0 <= k < |pieces| ==> Unbroken(pieces[k], size)
  }

  lemma LongerIsUnbroken(piece: string, token: string, size: int)
    requires size >= 1 && (NoSpace(token) || AllSpace(token))
    requires Open(piece, size)
    ensures Unbroken(piece + token, size)
  {
    var longer := piece + token;
    forall j | 0 < j < |longer| && j >= size
      ensures NoBreakAt(longer, j)
    {
      if j < |piece| {
        assert NoBreakAt(piece, j);
      } else if j > |piece| {
        assert longer[j - 1] == token[j - 1 - |piece|] && longer[j] == token[j - |piece|];
      }
    }
  }

  lemma NextIsUnbroken(pieces: seq<string>, piece: string, token: string, size: int)
    requires size >= 1 && (NoSpace(token) || (token != "" && AllSpace(token)))
    requires AllUnbroken(pieces, size) && Open(piece, size)
    ensures var longer := piece + token;
            && AllUnbroken(pieces + [longer], size)
            && (|longer| < size || IsBlank(token) ==> Open(longer, size))
  {
    LongerIsUnbroken(piece, token, size);
  }

  lemma LastPiece(pieces: seq<string>, piece: string, tokens: seq<string>, text: string, size: int)
    requires Cutting(pieces, piece, tokens, |tokens|, size) && Flat(tokens) == text
    ensures var all := if piece == "" then pieces else pieces + [piece];
            && Flat(all) == text
            && (forall k :: 0 <= k < |all| ==> all[k] != [])
            && (forall k :: 0 < k < |all| ==> GoodBreak(all[k - 1], all[k], size))
  {
    assert tokens[..|tokens|] == tokens;
    if piece == "" {
      assert Flat(pieces) + piece == Flat(pieces);
    } else {
      PiecesGrow(pieces, piece, size);
    }
  }

  ghost predicate InProgress(pieces: seq<string>, piece: string, tokens: seq<string>, i: nat, size: int)
    requires i <= |tokens|
  {
    Cutting(pieces, piece, tokens, i, size) && AllUnbroken(pieces, size) && Open(piece, size)
  }

  lemma Advance(pieces: seq<string>, piece: string, tokens: seq<string>, i: nat, size: int)
    requires i < |tokens| && Alternate(tokens) && size >= 1
    requires InProgress(pieces, piece, tokens, i, size)
    ensures var longer := piece + tokens[i];
            if |longer| >= size && !IsBlank(tokens[i])
            then InProgress(pieces + [longer], "", tokens, i + 1, size)
            else InProgress(pieces, longer, tokens, i + 1, size)
  {
    assert TokenOk(tokens, i);
    NextToken(pieces, piece, tokens, i, size);
    NextIsUnbroken(pieces, piece, tokens[i], size);
  }

  // The pieces reproduce the text exactly, none is empty, every piece but the last has `size`
  // characters, no word is cut, and each piece ends at the first place where it may.
  ghost predicate CutWell(text: string, pieces: seq<string>, size: int) {
    && Flat(pieces) == text
    && (forall i :: 0 <= i < |pieces| ==> pieces[i] != [])
    && (forall i :: 0 < i < |pieces| ==> GoodBreak(pieces[i - 1], pieces[i], size))
    && AllUnbroken(pieces, size)
  }

  lemma Done(pieces: seq<string>, piece: string, tokens: seq<string>, text: string, size: int)
    requires InProgress(pieces, piece, tokens, |tokens|, size) && Flat(tokens) == text
    ensures CutWell(text, if piece == "" then pieces else pieces + [piece], size)
  {
    LastPiece(pieces, piece, tokens, text, size);
  }

  lemma NoPieces(pieces: seq<string>)
    requires Flat(pieces) == "" && forall i :: 0 <= i < |pieces| ==> pieces[i] != []
    ensures pieces == []
  {
  }

  predicate BreakAt(text: string, j: int, size: int) {
    0 < j < |text| && j >= size && !IsSpace(text[j - 1]) && IsSpace(text[j])
  }

  lemma BreaksAfterFirst(text: string, pieces: seq<string>, size: int)
    requires text != "" && CutWell(text, pieces, size)
    ensures pieces != [] && 0 < |pieces[0]| <= |text|
    ensures |pieces[0]| < |text| ==> BreakAt(text, |pieces[0]|, size)
  {
    assert text == pieces[0] + Flat(pieces[1..]);
    if |pieces| > 1 {
      assert GoodBreak(pieces[1 - 1], pieces[1], size);
      assert Flat(pieces[1..]) == pieces[1] + Flat(pieces[2..]);
    }
  }

  lemma NoBreakInFirst(text: string, pieces: seq<string>, size: int, j: int)
    requires text != "" && CutWell(text, pieces, size) && pieces != [] && j < |pieces[0]|
    ensures !BreakAt(text, j, size)
  {
    assert text == pieces[0] + Flat(pieces[1..]);
    assert Unbroken(pieces[0], size);
    if 0 < j && j >= size {
      assert NoBreakAt(pieces[0], j);
    }
  }

  lemma FirstPieceNotLonger(text: string, a: seq<string>, b: seq<string>, size: int)
    requires size >= 1 && text != "" && CutWell(text, a, size) && CutWell(text, b, size)
    ensures a != [] && b != [] && |b[0]| <= |a[0]| <= |text|
  {
    BreaksAfterFirst(text, a, size);
    BreaksAfterFirst(text, b, size);
    if |a[0]| < |b[0]| {
      NoBreakInFirst(text, b, size, |a[0]|);
    }
  }

  // There is only one such cut.
  lemma {:induction false} CutIsUnique(text: string, a: seq<string>, b: seq<string>, size: int)
    requires size >= 1 && CutWell(text, a, size) && CutWell(text, b, size)
    ensures a == b
    decreases |a|
  {
    if text == "" {
      NoPieces(a);
      NoPieces(b);
    } else {
      FirstPieceNotLonger(text, a, b, size);
      FirstPieceNotLonger(text, b, a, size);
      assert text == a[0] + Flat(a[1..]) == b[0] + Flat(b[1..]);
      assert a[0] == text[..|a[0]|] == b[0];
      assert Flat(a[1..]) == text[|a[0]|..] == Flat(b[1..]);
      TailCutWell(a, size);
      TailCutWell(b, size);
      CutIsUnique(Flat(a[1..]), a[1..], b[1..], size);
      assert a == [a[0]] + a[1..] && b == [b[0]] + b[1..];
    }
  }

  lemma TailCutWell(a: seq<string>, size: int)
    requires a != [] && CutWell(Flat(a), a, size)
    ensures CutWell(Flat(a[1..]), a[1..], size)
  {
    forall i | 0 < i < |a| - 1
      ensures GoodBreak(a[1..][i - 1], a[1..][i], size)
    {
      assert GoodBreak(a[i + 1 - 1], a[i + 1], size);
    }
  }

  lemma FlatGrows(pieces: seq<string>, piece: string, tokens: seq<string>, i: nat)
    requires i < |tokens| && Flat(pieces) + piece == Flat(tokens[..i])
    ensures Flat(pieces) + (piece + tokens[i]) == Flat(tokens[..i + 1])
    ensures Flat(pieces + [piece + tokens[i]]) + "" == Flat(tokens[..i + 1])
  {
    assert tokens[..i + 1] == tokens[..i] + [tokens[i]];
    FlatSnoc(tokens[..i], tokens[i]);
    FlatSnoc(pieces, piece + tokens[i]);
  }

  // Cutting at whitespace only. The pieces reproduce the text whatever the size.
  method Chunk(text: string, size: int := DEFAULT_SIZE) returns (pieces: seq<string>)
    ensures Flat(pieces) == text
    ensures size >= 1 ==> CutWell(text, pieces, size)
  {
    pieces := [];
    if text == "" {
      return;
    }
    var piece := "";
    var tokens := Tokens(text);
    TokensJoin(text);
    TokensAlternate(text);
    for i := 0 to |tokens|
      invariant Flat(pieces) + piece == Flat(tokens[..i])
      invariant size >= 1 ==> InProgress(pieces, piece, tokens, i, size)
    {
      if size >= 1 {
        Advance(pieces, piece, tokens, i, size);
      }
      FlatGrows(pieces, piece, tokens, i);
      piece := piece + tokens[i];
      if |piece| >= size && !IsBlank(tokens[i]) {
        pieces := pieces + [piece];
        piece := "";
      }
    }
    assert tokens[..|tokens|] == tokens;
    if size >= 1 {
      Done(pieces, piece, tokens, text, size);
    }
    FlatSnoc(pieces, piece);
    if piece != "" {
      pieces := pieces + [piece];
    }
  }

  // -- the streamer -------------------------------------------------------

  const BUSY := Error("realtime_busy", "A question is already being answered on this connection.")
  const FAILED := Error("realtime_answer_failed", "The answer could not be completed.")

  // How the pipeline ends: a reply, an application error, or any other exception.
  datatype Outcome =
    | Replied(text: string, citations: seq<string>, escalated: bool)
    | Refused(code: string, message: string)
    | Broke

  function Deltas(pieces: seq<string>): (frames: seq<Frame>)
    ensures |frames| == |pieces|
  {
    seq(|pieces|, i requires 0 <= i < |pieces| => Delta(pieces[i]))
  }

  // The frames one question is answered with, its text cut into these pieces.
  function AnswerFrames(outcome: Outcome, conversation: Option<string>, pieces: seq<string>): seq<Frame> {
    match outcome
    case Replied(text, citations, escalated) =>
      Deltas(pieces) + [Complete(text, |pieces|, conversation, true, citations, escalated)]
    case Refused(code, message) => [Error(code, message)]
    case Broke => [FAILED]
  }

  ghost predicate CutOf(outcome: Outcome, pieces: seq<string>) {
    outcome.Replied? ==> Flat(pieces) == outcome.text
  }

  // -- prose, when the pipeline cannot run ------------------------------------

  // How a turn is recorded: taken, without a recorder, refused by the application, or otherwise.
  datatype Recording = Taken | NoRecorder | Rejected(code: string, message: string) | Lost

  function Report(recording: Recording): seq<Frame> {
    match recording
    case Taken => []
    case NoRecorder => [Error("realtime_conversations_unavailable", "This connection cannot record conversations.")]
    case Rejected(code, message) => [Error(code, message)]
    case Lost => [Error("realtime_turn_not_recorded", "The exchange could not be recorded.")]
  }

  // How the provider's stream ends: well, with one of its own errors, or with any other
  // exception, which nothing on the way catches.
  datatype Stream = Finished | Failed(code: string) | Raised

  // What the provider streams, and how both turns are recorded.
  datatype Prose = Prose(question: Recording, pieces: seq<string>, stream: Stream, answer: Recording)

  predicate Refuses(prose: Prose, conversation: Option<string>) {
    conversation.Some? && !prose.question.Taken?
  }

  // The exception that ends the connection's loop.
  predicate Escapes(prose: Prose, conversation: Option<string>) {
    !Refuses(prose, conversation) && prose.stream.Raised?
  }

  function ProseFrames(prose: Prose, conversation: Option<string>): seq<Frame> {
    if Refuses(prose, conversation) then Report(prose.question)
    else
      Deltas(prose.pieces) +
      match prose.stream
      case Raised => []
      case Failed(code) => [Error(code, "The answer could not be completed.")]
      case Finished => (if conversation.Some? then Report(prose.answer) else []) + [Whole(prose.pieces, conversation)]
  }

  function Whole(pieces: seq<string>, conversation: Option<string>): Frame {
    Complete(Flat(pieces), |pieces|, conversation, false, [], false)
  }

  predicate Terminates(frame: Frame) {
    frame.Complete? || frame.Error?
  }

  function Endings(frames: seq<Frame>): nat {
    if frames == [] then 0 else (if Terminates(frames[0]) then 1 else 0) + Endings(frames[1..])
  }

  lemma {:induction false} EndingsAppend(a: seq<Frame>, b: seq<Frame>)
    ensures Endings(a + b) == Endings(a) + Endings(b)
  {
    if a == [] {
      assert a + b == b;
    } else {
      assert (a + b)[1..] == a[1..] + b;
      EndingsAppend(a[1..], b);
    }
  }

  lemma {:induction false} DeltasEndNothing(pieces: seq<string>)
    ensures Endings(Deltas(pieces)) == 0
  {
    if pieces != [] {
      DeltasEndNothing(pieces[1..]);
      assert Deltas(pieces)[1..] == Deltas(pieces[1..]);
    }
  }

  lemma EndingsOfOne(frame: Frame)
    ensures Endings([frame]) == if Terminates(frame) then 1 else 0
  {
    assert [frame][1..] == [];
  }

  // A grounded answer ends exactly once.
  lemma GroundedEndsOnce(outcome: Outcome, conversation: Option<string>, pieces: seq<string>)
    ensures Endings(AnswerFrames(outcome, conversation, pieces)) == 1
  {
    var frames := AnswerFrames(outcome, conversation, pieces);
    EndingsOfOne(frames[|frames| - 1]);
    if outcome.Replied? {
      DeltasEndNothing(pieces);
      EndingsAppend(Deltas(pieces), [frames[|frames| - 1]]);
    }
  }

  // How often prose ends: not at all exactly when an exception escapes, twice exactly when it
  // was streamed in full but not recorded, by an Error and then its Complete, and else once.
  lemma ProseEndings(prose: Prose, conversation: Option<string>)
    ensures var twice := conversation.Some? && prose.question.Taken? && prose.stream.Finished? && !prose.answer.Taken?;
            Endings(ProseFrames(prose, conversation)) ==
            if Escapes(prose, conversation) then 0 else if twice then 2 else 1
  {
    if Refuses(prose, conversation) {
      EndingsOfOne(Report(prose.question)[0]);
    } else {
      DeltasEndNothing(prose.pieces);
      var tail := ProseFrames(prose, conversation)[|Deltas(prose.pieces)|..];
      assert ProseFrames(prose, conversation) == Deltas(prose.pieces) + tail;
      EndingsAppend(Deltas(prose.pieces), tail);
      TailEndings(prose, conversation, tail);
    }
  }

  lemma TailEndings(prose: Prose, conversation: Option<string>, tail: seq<Frame>)
    requires !Refuses(prose, conversation) && ProseFrames(prose, conversation) == Deltas(prose.pieces) + tail
    ensures Endings(tail) ==
            if prose.stream.Raised? then 0
            else if conversation.Some? && prose.stream.Finished? && !prose.answer.Taken? then 2 else 1
  {
    var frames := ProseFrames(prose, conversation);
    assert tail == frames[|Deltas(prose.pieces)|..];
    match prose.stream
    case Raised =>
    case Failed(_) => EndingsOfOne(tail[0]);
    case Finished =>
      var report := if conversation.Some? then Report(prose.answer) else [];
      var last := Whole(prose.pieces, conversation);
      assert tail == report + [last];
      EndingsOfOne(last);
      EndingsAppend(report, [last]);
      if report != [] {
        EndingsOfOne(report[0]);
      }
  }

  // The pipeline, or prose when it is not available.
  datatype Source = Grounded(outcome: Outcome) | Ungrounded(prose: Prose)

  class AnswerStreamer {
    var busy: bool
    var sent: seq<Frame>

    constructor ()
      ensures !busy && sent == []
    {
      busy, sent := false, [];
    }

    // A question asked while another is answered gets one error frame. Whatever escapes, the
    // streamer is free again.
    method Answer(source: Source, conversation: Option<string>) returns (pieces: seq<string>, raised: bool)
      modifies this
      ensures busy == old(busy)
      ensures old(busy) ==> sent == old(sent) + [BUSY]
      ensures !old(busy) && source.Grounded? ==>
                && CutOf(source.outcome, pieces)
                && sent == old(sent) + AnswerFrames(source.outcome, conversation, pieces)
      ensures !old(busy) && source.Ungrounded? ==> sent == old(sent) + ProseFrames(source.prose, conversation)
      ensures raised <==> !old(busy) && source.Ungrounded? && Escapes(source.prose, conversation)
    {
      pieces, raised := [], false;
      if busy {
        sent := sent + [BUSY];
        return;
      }
      busy := true;
      match source {
        case Grounded(outcome) => pieces := AnswerGrounded(outcome, conversation);
        case Ungrounded(prose) => raised := StreamProse(prose, conversation);
      }
      busy := false;
    }

    method AnswerGrounded(outcome: Outcome, conversation: Option<string>) returns (pieces: seq<string>)
      modifies this`sent
      ensures CutOf(outcome, pieces) && sent == old(sent) + AnswerFrames(outcome, conversation, pieces)
    {
      pieces := [];
      match outcome
      case Refused(code, message) => sent := sent + [Error(code, message)];
      case Broke => sent := sent + [FAILED];
      case Replied(text, citations, escalated) =>
        pieces := Chunk(text);
        SendDeltas(pieces);
        sent := sent + [Complete(text, |pieces|, conversation, true, citations, escalated)];
    }

    method SendDeltas(pieces: seq<string>)
      modifies this`sent
      ensures sent == old(sent) + Deltas(pieces)
    {
      for i := 0 to |pieces|
        invariant sent == old(sent) + Deltas(pieces[..i])
      {
        sent := sent + [Delta(pieces[i])];
      }
      assert pieces[..|pieces|] == pieces;
    }

    method StreamProse(prose: Prose, conversation: Option<string>) returns (raised: bool)
      modifies this`sent
      ensures sent == old(sent) + ProseFrames(prose, conversation)
      ensures raised <==> Escapes(prose, conversation)
    {
      raised := false;
      if conversation.Some? && !prose.question.Taken? {
        sent := sent + Report(prose.question);
        return;
      }
      SendDeltas(prose.pieces);
      match prose.stream
      case Raised => raised := true;
      case Failed(code) => sent := sent + [Error(code, "The answer could not be completed.")];
      case Finished =>
        if conversation.Some? {
          sent := sent + Report(prose.answer);
        }
        sent := sent + [Whole(prose.pieces, conversation)];
    }
  }
}
