// When a person is needed, and what the customer is told
// (backend/app/escalation/criteria.py, handoff.py).
module Escalation {
  import opened Intents
  import opened Policy
  import opened Routing
  import opened Text

  datatype Reason = Unresolved | BelowConfidence | Uncategorised | ByPolicy | IsComplaint

  datatype EscalationContext = EscalationContext(analysis: Analysis, handled: bool, modified: bool)

  // `evaluate` as a value: its reasons, in order.
  function Reasons(context: EscalationContext, minConfidence: real): (reasons: seq<Reason>)
    ensures Unresolved in reasons <==> !context.handled
    ensures IsComplaint in reasons <==> context.analysis.intent == Complaint
    ensures Uncategorised in reasons <==> context.analysis.intent == Other
    ensures BelowConfidence in reasons <==>
            context.analysis.intent != Other && context.analysis.confidence < minConfidence
    ensures ByPolicy in reasons <==> context.modified
  {
    (if !context.handled then [Unresolved] else [])
    + (if context.analysis.intent == Complaint then [IsComplaint] else [])
    + (if context.analysis.intent == Other then [Uncategorised]
       else if context.analysis.confidence < minConfidence then [BelowConfidence] else [])
    + (if context.modified then [ByPolicy] else [])
  }

  // How pressing a reason is; the most pressing comes first.
  function Rank(reason: Reason): nat {
    match reason
    case Unresolved => 0
    case IsComplaint => 1
    case Uncategorised => 2
    case BelowConfidence => 2
    case ByPolicy => 3
  }

  // Each reason stands once, in order of rank, so the first one given is the most pressing.
  lemma ReasonsAreRanked(context: EscalationContext, minConfidence: real, i: nat, j: nat)
    requires i < j < |Reasons(context, minConfidence)|
    ensures Rank(Reasons(context, minConfidence)[i]) < Rank(Reasons(context, minConfidence)[j])
  {
  }

  method Evaluate(context: EscalationContext, minConfidence: real) returns (reasons: seq<Reason>)
    ensures reasons == Reasons(context, minConfidence)
  {
    reasons := [];
    if !context.handled {
      reasons := reasons + [Unresolved];
    }
    if context.analysis.intent == Complaint {
      reasons := reasons + [IsComplaint];
    }
    if context.analysis.intent == Other {
      reasons := reasons + [Uncategorised];
    } else if context.analysis.confidence < minConfidence {
      reasons := reasons + [BelowConfidence];
    }
    if context.modified {
      reasons := reasons + [ByPolicy];
    }
  }

  // -- the notice -----------------------------------------------------------

  const AGENT := "support agent"
  const HANDOFF_NOTICE := " A " + AGENT + " will follow up with you."

  // Lower case for ASCII letters; no other letter has a lower case that occurs in `AGENT`.
  function LowerChar(c: char): (lower: char)
    ensures !('A' <= lower <= 'Z') && (lower == c <==> !('A' <= c <= 'Z'))
    ensures 'A' <= c <= 'Z' ==> lower as int - 'a' as int == c as int - 'A' as int
  {
    if 'A' <= c <= 'Z' then (c as int + 32) as char else c
  }

  function Lower(s: string): (r: string)
    ensures |r| == |s| && forall i :: 0 <= i < |s| ==> r[i] == LowerChar(s[i])
  {
    seq(|s|, i requires 0 <= i < |s| => LowerChar(s[i]))
  }

  predicate StandsAt(s: string, i: int, word: string) {
    0 <= i <= |s| - |word| && s[i..i + |word|] == word
  }

  predicate Mentions(s: string, word: string) {
    exists i :: 0 <= i <= |s| - |word| && StandsAt(s, i, word)
  }

  function WithNotice(reply: string): string {
    if Mentions(Lower(reply), AGENT) then reply else RStrip(reply) + HANDOFF_NOTICE
  }

  // Nothing of a reply is lost but trailing whitespace, and nothing is added to one that
  // mentions the agent, in whatever case.
  lemma NoticeKeepsReply(reply: string)
    ensures RStrip(reply) <= WithNotice(reply)
    ensures WithNotice(reply) == reply <==> Mentions(Lower(reply), AGENT)
    ensures WithNotice(reply) != reply ==> WithNotice(reply)[|RStrip(reply)|..] == HANDOFF_NOTICE
  {
    if !Mentions(Lower(reply), AGENT) && WithNotice(reply) == reply {
      NoticeOnce(reply);
    }
  }

  lemma LowerOfParts(a: string, b: string, c: string)
    requires Lower(b) == b
    ensures Mentions(Lower(a + b + c), b)
  {
    var all := Lower(a + b + c);
    assert all[|a|..|a| + |b|] == b;
    assert StandsAt(all, |a|, b);
  }

  lemma AgentIsLower()
    ensures Lower(AGENT) == AGENT
  {
  }

  lemma ReviewReplyMentionsAgent()
    ensures WithNotice(REVIEW_REPLY) == REVIEW_REPLY
  {
    AgentIsLower();
    LowerOfParts("I have passed this to a ", AGENT, ", who will confirm the details with you.");
  }

  lemma LowerOfAppended(text: string, a: string, b: string, c: string)
    requires Lower(b) == b
    ensures Mentions(Lower(text + (a + b + c)), b)
  {
    assert text + (a + b + c) == (text + a) + b + c;
    LowerOfParts(text + a, b, c);
  }

  // The customer is told, and told once.
  lemma NoticeOnce(reply: string)
    ensures Mentions(Lower(WithNotice(reply)), AGENT)
    ensures WithNotice(WithNotice(reply)) == WithNotice(reply)
  {
    AgentIsLower();
    LowerOfAppended(RStrip(reply), " A ", AGENT, " will follow up with you.");
  }

  // -- the handoff ----------------------------------------------------------

  datatype ReviewItem = ReviewItem(message: string, intent: Intent, reason: Reason, proposedReply: string)

  datatype Handoff = Handoff(reply: string, escalated: bool, reasons: seq<Reason>, queued: bool)

  function ContextOf(routed: Routed): EscalationContext {
    EscalationContext(Analysis(routed.decision.intent, routed.decision.confidence), routed.handled, routed.modified)
  }

  // What the customer gets; `recorded` says whether the queue accepted the item.
  function Considered(routed: Routed, minConfidence: real, recorded: bool): Handoff {
    var reasons := Reasons(ContextOf(routed), minConfidence);
    if reasons == [] then Handoff(routed.reply, false, [], false)
    else Handoff(WithNotice(routed.reply), true, reasons, recorded)
  }

  // A person is asked exactly when the request is unresolved, a complaint, uncategorised, below
  // the floor or changed by policy; then the customer is told of the agent, and otherwise reads
  // the routed reply. The item is in the queue exactly if it could be recorded.
  lemma ConsideredExactly(routed: Routed, minConfidence: real, recorded: bool)
    ensures var handoff := Considered(routed, minConfidence, recorded);
            && (handoff.escalated <==>
                  || !routed.handled || routed.modified
                  || routed.decision.intent == Complaint || routed.decision.intent == Other
                  || routed.decision.confidence < minConfidence)
            && (handoff.escalated <==> handoff.reasons != [])
            && (handoff.escalated ==> Mentions(Lower(handoff.reply), AGENT) && RStrip(routed.reply) <= handoff.reply)
            && (!handoff.escalated ==> handoff.reply == routed.reply)
            && (handoff.queued <==> handoff.escalated && recorded)
            && (handoff.escalated ==>
                  handoff.reasons[0] ==
                    if !routed.handled then Unresolved
                    else if routed.decision.intent == Complaint then IsComplaint
                    else if routed.decision.intent == Other then Uncategorised
                    else if routed.decision.confidence < minConfidence then BelowConfidence
                    else ByPolicy)
  {
    var reasons := Reasons(ContextOf(routed), minConfidence);
    NoticeOnce(routed.reply);
    NoticeKeepsReply(routed.reply);
    assert reasons == [] ==> Unresolved !in reasons && ByPolicy !in reasons;
  }

  class HandoffService {
    const minConfidence: real
    var queue: seq<ReviewItem>

    constructor (minConfidence: real)
      ensures queue == [] && this.minConfidence == minConfidence
    {
      this.minConfidence := minConfidence;
      queue := [];
    }

    // A queue that cannot record does not keep the reply from going out.
    method Consider(message: string, routed: Routed, queueFails: bool) returns (handoff: Handoff)
      modifies this
      ensures handoff == Considered(routed, minConfidence, !queueFails)
      ensures queue == old(queue) + if handoff.queued then
                [ReviewItem(message, routed.decision.intent, handoff.reasons[0], routed.reply)] else []
    {
      var reasons := Evaluate(ContextOf(routed), minConfidence);
      if reasons == [] {
        return Handoff(routed.reply, false, [], false);
      }
      if !queueFails {
        queue := queue + [ReviewItem(message, routed.decision.intent, reasons[0], routed.reply)];
      }
      return Handoff(WithNotice(routed.reply), true, reasons, !queueFails);
    }
  }
}
