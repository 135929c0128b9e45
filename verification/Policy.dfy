// Policy rules and their enforcement (backend/app/policy/rules.py, library.py, enforcement.py).
module Policy {
  import opened Intents
  import opened Wrappers

  // -- rules ----------------------------------------------------------------

  datatype Context = Context(message: string, analysis: Analysis, proposedReply: string, handled: bool)

  datatype Action = Allow | Block | Replace

  // An empty `replacement` is no replacement.
  datatype Verdict = Verdict(action: Action, rule: string, reason: string, replacement: string)

  datatype Rule = Rule(name: string, evaluate: Context -> Option<Verdict>)

  // The verdict, and the rules consulted to reach it, in order.
  datatype Evaluation = Evaluation(outcome: Verdict, evaluated: seq<string>)

  const NO_RULE := "default_allow"

  function AllowedBy(rule: string): Verdict {
    Verdict(Allow, rule, "no rule applied", "")
  }

  predicate Decides(rule: Rule, context: Context) {
    rule.evaluate(context).Some? && rule.evaluate(context).value.action != Allow
  }

  function Names(rules: seq<Rule>): (names: seq<string>)
    ensures |names| == |rules| && forall i :: 0 <= i < |rules| ==> names[i] == rules[i].name
  {
    if rules == [] then [] else Names(rules[..|rules| - 1]) + [rules[|rules| - 1].name]
  }

  // How many leading rules have nothing to say.
  function Silent(rules: seq<Rule>, context: Context): (n: nat)
    ensures n <= |rules| && forall i :: 0 <= i < n ==> !Decides(rules[i], context)
    ensures n < |rules| ==> Decides(rules[n], context)
  {
    if rules == [] || Decides(rules[0], context) then 0 else 1 + Silent(rules[1..], context)
  }

  // The first rule that decides wins; the rules consulted are those up to it.
  function Evaluated(rules: seq<Rule>, context: Context): Evaluation {
    var n := Silent(rules, context);
    if n == |rules| then Evaluation(AllowedBy(NO_RULE), Names(rules))
    else Evaluation(rules[n].evaluate(context).value, Names(rules)[..n + 1])
  }

  lemma {:induction false} SilentIsFirst(rules: seq<Rule>, more: seq<Rule>, context: Context)
    requires Silent(rules, context) < |rules|
    ensures Silent(rules + more, context) == Silent(rules, context)
  {
    assert (rules + more)[0] == rules[0];
    if !Decides(rules[0], context) {
      assert (rules + more)[1..] == rules[1..] + more;
      SilentIsFirst(rules[1..], more, context);
    }
  }

  lemma NamesOfPrefix(rules: seq<Rule>, more: seq<Rule>, n: nat)
    requires n <= |rules|
    ensures Names(rules + more)[..n] == Names(rules)[..n]
  {
    assert forall i :: 0 <= i < n ==> (rules + more)[i] == rules[i];
  }

  // A decision depends on no rule after the one that made it.
  lemma LaterRulesCannotOverrule(rules: seq<Rule>, more: seq<Rule>, context: Context)
    requires Silent(rules, context) < |rules|
    ensures Evaluated(rules + more, context) == Evaluated(rules, context)
  {
    var n := Silent(rules, context);
    SilentIsFirst(rules, more, context);
    NamesOfPrefix(rules, more, n + 1);
    assert (rules + more)[n] == rules[n];
  }

  lemma SilentUpTo(rules: seq<Rule>, context: Context, n: nat)
    requires n <= |rules| && forall i :: 0 <= i < n ==> !Decides(rules[i], context)
    requires n < |rules| ==> Decides(rules[n], context)
    ensures Silent(rules, context) == n
  {
  }

  // An evaluation allows by default exactly when no rule decides. Otherwise it is the verdict of
  // some rule that decides while none before it does, and lists the names up to that rule.
  lemma FirstDecisionCounts(rules: seq<Rule>, context: Context, n: nat)
    requires n < |rules| ==> Decides(rules[n], context)
    requires n <= |rules| && forall i :: 0 <= i < n ==> !Decides(rules[i], context)
    ensures var evaluation := Evaluated(rules, context);
            && (n < |rules| ==> evaluation.outcome == rules[n].evaluate(context).value
                                && evaluation.outcome.action != Allow && |evaluation.evaluated| == n + 1)
            && (n == |rules| ==> evaluation.outcome.action == Allow && evaluation.outcome.rule == NO_RULE
                                 && |evaluation.evaluated| == n)
            && forall i :: 0 <= i < |evaluation.evaluated| ==> evaluation.evaluated[i] == rules[i].name
  {
    SilentUpTo(rules, context, n);
  }

  class PolicyEngine {
    var rules: seq<Rule>

    ghost predicate Valid()
      reads this
    {
      && (forall i :: 0 <= i < |rules| ==> rules[i].name != "")
      && (forall i, j :: 0 <= i < j < |rules| ==> rules[i].name != rules[j].name)
    }

    constructor ()
      ensures Valid() && |rules| == 0
    {
      rules := [];
    }

    // `add`: a rule must have a name, and a name of its own.
    method Add(rule: Rule) returns (added: bool)
      requires Valid()
      modifies this
      ensures Valid()
      ensures added <==> rule.name != "" && rule.name !in Names(old(rules))
      ensures |rules| == |old(rules)| + if added then 1 else 0
      ensures rules[..|old(rules)|] == old(rules) && (added ==> rules[|old(rules)|] == rule)
    {
      added := rule.name != "" && rule.name !in Names(rules);
      if added {
        assert forall i :: 0 <= i < |rules| ==> Names(rules)[i] == rules[i].name;
        rules := rules + [rule];
      }
    }

    method Evaluate(context: Context) returns (evaluation: Evaluation)
      ensures evaluation == Evaluated(rules, context)
    {
      var consulted: seq<string> := [];
      for n := 0 to |rules|
        invariant consulted == Names(rules)[..n]
        invariant forall i :: 0 <= i < n ==> !Decides(rules[i], context)
      {
        consulted := consulted + [rules[n].name];
        var outcome := rules[n].evaluate(context);
        assert consulted == Names(rules)[..n + 1];
        if outcome.Some? && outcome.value.action != Allow {
          SilentUpTo(rules, context, n);
          return Evaluation(outcome.value, consulted);
        }
      }
      SilentUpTo(rules, context, |rules|);
      return Evaluation(AllowedBy(NO_RULE), consulted);
    }
  }

  // -- the default rules ----------------------------------------------------

  const REVIEW_REPLY := "I have passed this to a " + "support agent" + ", who will confirm the details with you."

  function ReplaceBy(rule: string, reason: string): Option<Verdict> {
    Some(Verdict(Replace, rule, reason, REVIEW_REPLY))
  }

  // `commits` stands for the patterns of language that commits the business to an outcome.
  function NoFinancialCommitments(commits: string -> bool): Rule {
    var name := "no_financial_commitments";
    Rule(name, (context: Context) =>
      if commits(context.proposedReply) then ReplaceBy(name, "The reply committed to a financial outcome.") else None)
  }

  function ComplaintsGoToAHuman(): Rule {
    var name := "complaints_go_to_a_human";
    Rule(name, (context: Context) =>
      if context.analysis.intent == Complaint then ReplaceBy(name, "Complaints are answered by a person.") else None)
  }

  function UnresolvedAreNotAnswered(): Rule {
    var name := "unresolved_requests_reach_a_human";
    Rule(name, (context: Context) =>
      if !context.handled then ReplaceBy(name, "The handler could not resolve the request.") else None)
  }

  function DefaultRules(commits: string -> bool): seq<Rule> {
    [NoFinancialCommitments(commits), ComplaintsGoToAHuman(), UnresolvedAreNotAnswered()]
  }

  // -- enforcement ----------------------------------------------------------

  const BLOCKED_REPLY := "I am not able to help with that here. A support agent will follow up."

  datatype Enforced = Enforced(reply: string, action: Action, rule: string, modified: bool, handled: bool)

  function Apply(outcome: Verdict, proposed: string, handled: bool): Enforced {
    match outcome.action
    case Block => Enforced(BLOCKED_REPLY, Block, outcome.rule, true, false)
    case Replace =>
      var replacement := if outcome.replacement != "" then outcome.replacement else BLOCKED_REPLY;
      Enforced(replacement, Replace, outcome.rule, replacement != proposed, handled)
    case Allow => Enforced(proposed, Allow, outcome.rule, false, handled)
  }

  function Enforce(rules: seq<Rule>, context: Context): Enforced {
    Apply(Evaluated(rules, context).outcome, context.proposedReply, context.handled)
  }

  // Whatever the rules: a reply is reported as modified exactly when the text changed or was
  // blocked, and policy never turns an unresolved request into a resolved one.
  lemma ModifiedExactly(rules: seq<Rule>, context: Context)
    ensures var enforced := Enforce(rules, context);
            && (enforced.modified <==> enforced.reply != context.proposedReply || enforced.action == Block)
            && enforced.handled == (context.handled && enforced.action != Block)
            && (enforced.action != Allow ==>
                  exists i :: 0 <= i < |rules| && Decides(rules[i], context) && enforced.action ==
                    rules[i].evaluate(context).value.action)
  {
    var n := Silent(rules, context);
    if n < |rules| {
      assert Decides(rules[n], context);
    }
  }

  // What the customer reads after the first rule that decides: the fixed refusal for a block, the
  // rule's own text for a replacement or, if it has none, the refusal; never an empty reply.
  lemma FirstDecisionIsRead(rules: seq<Rule>, context: Context, n: nat)
    requires n < |rules| && Decides(rules[n], context)
    requires forall i :: 0 <= i < n ==> !Decides(rules[i], context)
    ensures var verdict, enforced := rules[n].evaluate(context).value, Enforce(rules, context);
            && enforced.action == verdict.action && enforced.rule == verdict.rule
            && enforced.reply == (if verdict.action == Replace && verdict.replacement != "" then verdict.replacement
                                  else BLOCKED_REPLY)
            && enforced.reply != ""
  {
    FirstDecisionCounts(rules, context, n);
  }

  // No decision leaves the reply as it was proposed.
  lemma NoDecisionIsVerbatim(rules: seq<Rule>, context: Context)
    requires forall i :: 0 <= i < |rules| ==> !Decides(rules[i], context)
    ensures Enforce(rules, context) == Enforced(context.proposedReply, Allow, NO_RULE, false, context.handled)
  {
    FirstDecisionCounts(rules, context, |rules|);
  }

  // The default rules let a reply through exactly when it makes no commitment, answers no
  // complaint and is resolved; otherwise the customer reads the review reply.
  lemma DefaultRulesDecide(commits: string -> bool, context: Context)
    ensures var enforced := Enforce(DefaultRules(commits), context);
            var passes := !commits(context.proposedReply) && context.analysis.intent != Complaint && context.handled;
            && enforced.reply == (if passes then context.proposedReply else REVIEW_REPLY)
            && enforced.modified == (!passes && context.proposedReply != REVIEW_REPLY)
            && enforced.handled == context.handled
            && (passes <==> enforced.rule == NO_RULE)
            && (commits(context.proposedReply) <==> enforced.rule == "no_financial_commitments")
            && (enforced.rule == "complaints_go_to_a_human" <==>
                  !commits(context.proposedReply) && context.analysis.intent == Complaint)
  {
    var rules := DefaultRules(commits);
    assert Decides(rules[0], context) <==> commits(context.proposedReply);
    assert Decides(rules[1], context) <==> context.analysis.intent == Complaint;
    assert Decides(rules[2], context) <==> !context.handled;
  }
}
