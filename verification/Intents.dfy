// Classifications and handlers (backend/app/schemas/intent.py, backend/app/routing/handlers.py,
// backend/app/routing/intent_handlers.py).
module Intents {
  import opened Wrappers

  datatype Intent = Billing | TechnicalSupport | Account | ProductQuestion | Complaint | Other

  datatype Analysis = Analysis(intent: Intent, confidence: real) {
    predicate Valid() {
      0.0 <= confidence <= 1.0
    }
  }

  type Citation = string

  datatype Response = Response(handler: string, reply: string, handled: bool, citations: seq<Citation>)

  // A handler is any function of what it is given; no response stands for one that raises.
  datatype Handler = Handler(name: string, handle: (string, Analysis) -> Option<Response>)

  const UNRESOLVED :=
    "I could not find an answer to that in our documentation. A support agent can pick this up from here."

  const FALLBACK :=
    Handler("fallback", (message: string, analysis: Analysis) => Some(Response("fallback", UNRESOLVED, false, [])))

  // `require_complete`: every category has a handler.
  ghost predicate Complete(registry: map<Intent, Handler>) {
    forall intent: Intent :: intent in registry
  }
}
