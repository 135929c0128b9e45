// The whole answering pipeline (backend/app/services/assistant.py), with the wiring of
// backend/app/routing/factory.py and backend/app/escalation/factory.py.
module Assistant {
  import opened Escalation
  import opened Intents
  import opened Policy
  import opened Routing
  import opened Wrappers

  // What `respond` does with a classified message: route it, with policy inside, then ask
  // whether a person is needed. None when the handler raises.
  datatype Sent = Sent(routed: Routed, handoff: Handoff)

  function Answered(router: Router, minConfidence: real, message: string, analysis: Analysis, recorded: bool)
    : Option<Sent>
  {
    match router.Route(message, analysis)
    case None => None
    case Some(routed) => Some(Sent(routed, Considered(routed, minConfidence, recorded)))
  }

  // The router as it is built: every category mapped, the fallback handler, the default rules.
  function Standard(registry: map<Intent, Handler>, minConfidence: real, commits: string -> bool): Router {
    Router(registry, FALLBACK, minConfidence, Some(DefaultRules(commits)))
  }

  // Whatever the rules and wherever the two confidence floors lie: a reply that carries
  // sources says what the handler said, perhaps with the notice after it.
  lemma CitedTextIsTheHandlers(router: Router, minConfidence: real, message: string, analysis: Analysis, recorded: bool)
    ensures var response := router.Chosen(analysis).handle(message, analysis);
            var sent := Answered(router, minConfidence, message, analysis, recorded);
            && (sent.Some? <==> response.Some?)
            && (sent.Some? && sent.value.routed.citations != [] ==>
                  && sent.value.routed.citations == response.value.citations
                  && sent.value.handoff.reply == (if sent.value.handoff.escalated
                                                  then WithNotice(response.value.reply) else response.value.reply))
  {
    CitedIsVerbatim(router, message, analysis);
  }

  // The customer hears from the handler alone exactly when a registered handler for a
  // category that is neither a complaint nor "other" resolved a confident classification
  // without committing to anything. Everything else is escalated.
  lemma EscalatedExactly(registry: map<Intent, Handler>, floor: real, commits: string -> bool,
                         message: string, analysis: Analysis, recorded: bool)
    requires Complete(registry)
    ensures var sent := Answered(Standard(registry, floor, commits), floor, message, analysis, recorded);
            var response := Standard(registry, floor, commits).Chosen(analysis).handle(message, analysis);
            sent.Some? ==>
              (!sent.value.handoff.escalated <==>
                 && analysis.intent != Other && analysis.intent != Complaint
                 && analysis.confidence >= floor
                 && response.value.handled
                 && (!commits(response.value.reply) || response.value.reply == REVIEW_REPLY))
  {
    var router := Standard(registry, floor, commits);
    DecideIsExact(router, analysis);
    var response := router.Chosen(analysis).handle(message, analysis);
    if response.Some? {
      DefaultRulesDecide(commits, Context(message, analysis, response.value.reply, response.value.handled));
    }
  }

  // A reply nobody escalates is the handler's own, word for word and with its sources.
  lemma UnescalatedIsVerbatim(registry: map<Intent, Handler>, floor: real, commits: string -> bool,
                              message: string, analysis: Analysis, recorded: bool)
    requires Complete(registry)
    ensures var sent := Answered(Standard(registry, floor, commits), floor, message, analysis, recorded);
            sent.Some? && !sent.value.handoff.escalated ==>
              && registry[analysis.intent].handle(message, analysis).Some?
              && var response := registry[analysis.intent].handle(message, analysis).value;
                 && sent.value.handoff.reply == response.reply
                 && sent.value.routed.citations == response.citations
                 && sent.value.routed.handled && response.handled
                 && sent.value.routed.decision.reason == Matched
                 && !sent.value.routed.decision.fallback
                 && sent.value.routed.decision.confidence >= floor
  {
    var router := Standard(registry, floor, commits);
    EscalatedExactly(registry, floor, commits, message, analysis, recorded);
    DecideIsExact(router, analysis);
    var response := router.Chosen(analysis).handle(message, analysis);
    if response.Some? {
      DefaultRulesDecide(commits, Context(message, analysis, response.value.reply, response.value.handled));
    }
  }

  // With the default wiring an escalated reply is always the review reply itself: whatever
  // calls for a person also makes policy replace the text, so the notice is never appended.
  lemma EscalatedIsReviewReply(registry: map<Intent, Handler>, floor: real, commits: string -> bool,
                               message: string, analysis: Analysis, recorded: bool)
    requires Complete(registry)
    ensures var sent := Answered(Standard(registry, floor, commits), floor, message, analysis, recorded);
            sent.Some? && sent.value.handoff.escalated ==> sent.value.handoff.reply == REVIEW_REPLY
  {
    var router := Standard(registry, floor, commits);
    DecideIsExact(router, analysis);
    ReviewReplyMentionsAgent();
    var response := router.Chosen(analysis).handle(message, analysis);
    if response.Some? {
      DefaultRulesDecide(commits, Context(message, analysis, response.value.reply, response.value.handled));
    }
  }

  // A message goes to the fallback exactly when it is uncategorised or below the floor, and
  // then a person gets it: the customer reads the review reply, without sources.
  lemma FallbackReachesAHuman(registry: map<Intent, Handler>, floor: real, commits: string -> bool,
                              message: string, analysis: Analysis, recorded: bool)
    requires Complete(registry)
    ensures var router := Standard(registry, floor, commits);
            var sent := Answered(router, floor, message, analysis, recorded);
            && (router.Decide(analysis).fallback <==> analysis.intent == Other || analysis.confidence < floor)
            && (router.Decide(analysis).fallback ==>
                  && sent.Some?
                  && sent.value.handoff.escalated && Unresolved in sent.value.handoff.reasons
                  && sent.value.handoff.reply == REVIEW_REPLY
                  && sent.value.routed.citations == [] && !sent.value.routed.handled)
  {
    var router := Standard(registry, floor, commits);
    DecideIsExact(router, analysis);
    if router.Decide(analysis).fallback {
      DefaultRulesDecide(commits, Context(message, analysis, UNRESOLVED, false));
      ReviewReplyMentionsAgent();
    }
  }

  // -- the service ------------------------------------------------------------

  datatype Role = Customer | AssistantRole

  datatype Turn = Turn(role: Role, content: string, citations: seq<Citation>)

  datatype Failed = NotRecorded | ClassificationFailed | HandlerFailed | AnswerNotRecorded

  // What the world does during one call: whether the conversation takes each of the two turns,
  // what the model makes of the message, if it can be asked, and whether the queue fails.
  datatype Fortune = Fortune(
    takesQuestion: bool, classified: Option<Analysis>, queueFails: bool, takesAnswer: bool)

  // The turns of the conversation after a message: the question first, whatever happens next.
  function TurnsAfter(turns: seq<Turn>, message: string, answer: Option<Sent>): seq<Turn> {
    turns + [Turn(Customer, message, [])] +
    match answer
    case None => []
    case Some(sent) => [Turn(AssistantRole, sent.handoff.reply, sent.routed.citations)]
  }

  // The record of an exchange: what was there stays, the customer's words come next, and then,
  // exactly if a handler answered, what the customer read; sources on record are the handler's,
  // of its own text with at most the notice after it.
  lemma RecordIsTrue(router: Router, minConfidence: real, message: string, analysis: Analysis, recorded: bool,
                     turns: seq<Turn>)
    ensures var response := router.Chosen(analysis).handle(message, analysis);
            var sent := Answered(router, minConfidence, message, analysis, recorded);
            var after, n := TurnsAfter(turns, message, sent), |turns|;
            && |after| == n + (if response.Some? then 2 else 1)
            && after[..n] == turns && after[n] == Turn(Customer, message, [])
            && (response.Some? ==>
                  && sent.Some? && after[n + 1].role == AssistantRole
                  && after[n + 1].content == sent.value.handoff.reply
                  && (after[n + 1].citations == [] <==> sent.value.routed.citations == [])
                  && (after[n + 1].citations != [] ==>
                        && after[n + 1].citations == response.value.citations
                        && after[n + 1].content in {response.value.reply, WithNotice(response.value.reply)}))
  {
    CitedTextIsTheHandlers(router, minConfidence, message, analysis, recorded);
  }

  class AssistantService {
    const router: Router
    const handoff: HandoffService
    var conversations: map<nat, seq<Turn>>

    constructor (router: Router, handoff: HandoffService)
      ensures this.router == router && this.handoff == handoff && conversations == map[]
    {
      this.router := router;
      this.handoff := handoff;
      conversations := map[];
    }

    // The question is recorded before anything else can fail; an answer that cannot be recorded
    // is not returned, though a person may already have been asked.
    method Respond(message: string, conversation: Option<nat>, world: Fortune) returns (reply: Result<Sent, Failed>)
      modifies this, handoff
      ensures var missing := conversation.Some? &&
                             (conversation.value !in old(conversations) || !world.takesQuestion);
              var answer := if missing || world.classified.None? then None
                            else Answered(router, handoff.minConfidence, message, world.classified.value,
                                          !world.queueFails);
              && reply == (if missing then Failure(NotRecorded)
                           else if world.classified.None? then Failure(ClassificationFailed)
                           else if answer.None? then Failure(HandlerFailed)
                           else if conversation.Some? && !world.takesAnswer then Failure(AnswerNotRecorded)
                           else Success(answer.value))
              && conversations == (if missing || conversation.None? then old(conversations)
                                   else old(conversations)[conversation.value :=
                                          TurnsAfter(old(conversations)[conversation.value], message,
                                                     if world.takesAnswer then answer else None)])
              && handoff.queue == old(handoff.queue) + if answer.Some? && answer.value.handoff.queued then
                    [ReviewItem(message, answer.value.routed.decision.intent, answer.value.handoff.reasons[0],
                                answer.value.routed.reply)] else []
    {
      if conversation.Some? {
        if conversation.value !in conversations || !world.takesQuestion {
          return Failure(NotRecorded);
        }
        Record(conversation.value, Turn(Customer, message, []));
        ghost var asked := conversations[conversation.value];
        assert asked + [] == asked;
      }
      if world.classified.None? {
        return Failure(ClassificationFailed);
      }
      var routed := router.Route(message, world.classified.value);
      if routed.None? {
        return Failure(HandlerFailed);
      }
      var considered := handoff.Consider(message, routed.value, world.queueFails);
      if conversation.Some? {
        if !world.takesAnswer {
          return Failure(AnswerNotRecorded);
        }
        Record(conversation.value, Turn(AssistantRole, considered.reply, routed.value.citations));
      }
      return Success(Sent(routed.value, considered));
    }

    method Record(conversation: nat, turn: Turn)
      requires conversation in conversations
      modifies this
      ensures conversations == old(conversations)[conversation := old(conversations)[conversation] + [turn]]
    {
      conversations := conversations[conversation := conversations[conversation] + [turn]];
    }
  }
}
