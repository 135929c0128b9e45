// The WebSocket wire contract (backend/app/realtime/envelope.py).
module Frames {
  import opened Wrappers

  const MAX_QUESTION_LENGTH := 4_000

  // What the server sends.
  datatype Frame =
    | Ready
    | Pong
    | Delta(text: string)
    | Complete(text: string, deltas: nat, conversationId: Option<string>, grounded: bool,
        citations: seq<string>, escalated: bool)
    | Error(code: string, message: string)

  // Whether an ask frame passes validation.
  predicate ValidQuestion(question: string) {
    1 <= |question| <= MAX_QUESTION_LENGTH
  }
}
