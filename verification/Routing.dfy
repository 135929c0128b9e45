// Choosing a handler and running it (backend/app/routing/router.py).
module Routing {
  import opened Intents
  import opened Policy
  import opened Wrappers

  datatype RouteReason = Matched | NoCategory | LowConfidence | NoHandler

  datatype Decision = Decision(intent: Intent, confidence: real, handler: string, reason: RouteReason, fallback: bool)

  datatype Routed = Routed(decision: Decision, reply: string, handled: bool, rule: Option<string>, modified: bool,
    citations: seq<Citation>)

  datatype Router = Router(registry: map<Intent, Handler>, fallback: Handler, minConfidence: real,
    enforcer: Option<seq<Rule>>)
  {
    function ToFallback(analysis: Analysis, reason: RouteReason): Decision {
      Decision(analysis.intent, analysis.confidence, fallback.name, reason, true)
    }

    function Decide(analysis: Analysis): Decision {
      if analysis.intent == Other then ToFallback(analysis, NoCategory)
      else if analysis.confidence < minConfidence then ToFallback(analysis, LowConfidence)
      else if analysis.intent !in registry then ToFallback(analysis, NoHandler)
      else Decision(analysis.intent, analysis.confidence, registry[analysis.intent].name, Matched, false)
    }

    function Chosen(analysis: Analysis): Handler {
      if Decide(analysis).fallback || analysis.intent !in registry then fallback else registry[analysis.intent]
    }

    // No reply when the handler raises.
    function Route(message: string, analysis: Analysis): Option<Routed> {
      match Chosen(analysis).handle(message, analysis)
      case None => None
      case Some(response) =>
        var decision := Decide(analysis).(handler := response.handler);
        match enforcer
        case None => Some(Routed(decision, response.reply, response.handled, None, false, response.citations))
        case Some(rules) =>
          var enforced := Enforce(rules, Context(message, analysis, response.reply, response.handled));
          Some(Routed(decision, enforced.reply, enforced.handled, Some(enforced.rule), enforced.modified,
                      if enforced.modified then [] else response.citations))
    }
  }

  // Which handler runs, and why.
  lemma DecideIsExact(router: Router, analysis: Analysis)
    ensures var d := router.Decide(analysis);
            && (d.fallback <==> d.reason != Matched)
            && (d.reason == NoCategory <==> analysis.intent == Other)
            && (d.reason == LowConfidence <==>
                  analysis.intent != Other && analysis.confidence < router.minConfidence)
            && (d.reason == Matched <==>
                  analysis.intent != Other && analysis.confidence >= router.minConfidence &&
                  analysis.intent in router.registry)
            && router.Chosen(analysis) ==
               (if d.fallback then router.fallback else router.registry[analysis.intent])
            && d.intent == analysis.intent && d.confidence == analysis.confidence
            && d.handler == router.Chosen(analysis).name
    ensures Complete(router.registry) ==> router.Decide(analysis).reason != NoHandler
  {
    if Complete(router.registry) {
      assert analysis.intent in router.registry;
    }
  }

  // What is routed is told of the handler that answered, which one that delegates may not be; and
  // without rules, or when none decides, the response goes out as it is.
  lemma RoutedIsTheResponse(router: Router, message: string, analysis: Analysis)
    requires router.Chosen(analysis).handle(message, analysis).Some?
    requires router.enforcer.Some? ==>
               var response := router.Chosen(analysis).handle(message, analysis).value;
               forall i :: 0 <= i < |router.enforcer.value| ==>
                 !Decides(router.enforcer.value[i], Context(message, analysis, response.reply, response.handled))
    ensures router.Route(message, analysis).Some?
    ensures var response := router.Chosen(analysis).handle(message, analysis).value;
            var routed := router.Route(message, analysis).value;
            && routed.reply == response.reply && routed.handled == response.handled && !routed.modified
            && routed.citations == response.citations && routed.decision.handler == response.handler
            && routed.decision.reason == router.Decide(analysis).reason
            && routed.decision.intent == analysis.intent && routed.decision.confidence == analysis.confidence
            && (routed.rule == if router.enforcer.Some? then Some(NO_RULE) else None)
  {
    if router.enforcer.Some? {
      var response := router.Chosen(analysis).handle(message, analysis).value;
      NoDecisionIsVerbatim(router.enforcer.value, Context(message, analysis, response.reply, response.handled));
    }
  }

  // A decision by the n-th rule is what the customer reads, under that rule's name; a reply it
  // changed loses its sources, and one that reads the same keeps them.
  lemma RoutedIsTheDecision(router: Router, message: string, analysis: Analysis, n: nat)
    requires router.Chosen(analysis).handle(message, analysis).Some?
    requires router.enforcer.Some? && n < |router.enforcer.value|
    requires var response := router.Chosen(analysis).handle(message, analysis).value;
             var context := Context(message, analysis, response.reply, response.handled);
             && Decides(router.enforcer.value[n], context)
             && forall i :: 0 <= i < n ==> !Decides(router.enforcer.value[i], context)
    ensures router.Route(message, analysis).Some?
    ensures var response := router.Chosen(analysis).handle(message, analysis).value;
            var context := Context(message, analysis, response.reply, response.handled);
            var verdict := router.enforcer.value[n].evaluate(context).value;
            var routed := router.Route(message, analysis).value;
            && routed.rule == Some(verdict.rule)
            && routed.reply == (if verdict.action == Replace && verdict.replacement != "" then verdict.replacement
                                else BLOCKED_REPLY)
            && (routed.modified <==> routed.reply != response.reply || verdict.action == Block)
            && routed.citations == (if routed.modified then [] else response.citations)
            && routed.handled == (response.handled && verdict.action != Block)
            && routed.decision.handler == response.handler
  {
    var response := router.Chosen(analysis).handle(message, analysis).value;
    var context := Context(message, analysis, response.reply, response.handled);
    FirstDecisionIsRead(router.enforcer.value, context, n);
    ModifiedExactly(router.enforcer.value, context);
  }

  // Whatever the rules: a reply that carries sources is word for word the handler's.
  lemma CitedIsVerbatim(router: Router, message: string, analysis: Analysis)
    ensures var response := router.Chosen(analysis).handle(message, analysis);
            var routed := router.Route(message, analysis);
            && (routed.Some? <==> response.Some?)
            && (routed.Some? && routed.value.citations != [] ==>
                  routed.value.reply == response.value.reply && routed.value.citations == response.value.citations)
  {
  }
}
