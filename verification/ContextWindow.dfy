// Fitting conversation history into a token budget
// (backend/app/services/context.py, backend/app/services/conversation.py).
module ContextWindow {
  import opened Text

  const CHARS_PER_TOKEN := 4
  const TRUNCATION_MARKER := " …[truncated]"

  datatype Role = Customer | Assistant

  datatype Message = Message(role: Role, content: string, tokens: nat)

  datatype Context = Context(messages: seq<Message>, total: nat, dropped: nat, truncated: bool)

  // `estimate_tokens`: the length in tokens, rounded up, and at least one.
  function EstimateTokens(text: string): (n: nat)
    ensures n >= 1
    ensures |text| <= CHARS_PER_TOKEN * n && (n > 1 ==> CHARS_PER_TOKEN * (n - 1) < |text|)
  {
    if text == "" then 1 else (|text| + CHARS_PER_TOKEN - 1) / CHARS_PER_TOKEN
  }

  function Max(a: int, b: int): int {
    if a >= b then a else b
  }

  // `_truncate`
  function Truncate(content: string, budget: nat): string {
    var characters := Max(1, budget * CHARS_PER_TOKEN - |TRUNCATION_MARKER|);
    if |content| <= characters then content
    else RStrip(content[..characters]) + TRUNCATION_MARKER
  }

  // A turn over its budget is really shortened by truncation, down to a prefix
  // and the marker; it then fits the budget exactly when that is at least 4.
  lemma TruncationFits(content: string, budget: nat)
    requires budget >= 1 && EstimateTokens(content) > budget
    ensures Truncate(content, budget) == RStrip(content[..Max(1, budget * CHARS_PER_TOKEN - 13)]) + TRUNCATION_MARKER
    ensures EstimateTokens(Truncate(content, budget)) <= budget <==> budget >= 4
    ensures budget >= 4 ==> |Truncate(content, budget)| < |content|
  {
    assert |TRUNCATION_MARKER| == 13;
  }

  // A turn is cut only if it is longer than the characters its budget leaves for text.
  lemma ShortTurnsStayWhole(content: string, budget: nat)
    requires budget >= 1 && |content| <= Max(1, budget * CHARS_PER_TOKEN - |TRUNCATION_MARKER|)
    ensures Truncate(content, budget) == content
  {
  }

  function Sum(messages: seq<Message>): nat {
    if messages == [] then 0 else messages[0].tokens + Sum(messages[1..])
  }

  function Last(history: seq<Message>, k: nat): seq<Message>
    requires k <= |history|
  {
    history[|history| - k..]
  }

  // The window `build` assembles: the newest turn cut to the budget when it alone
  // is over it, and otherwise a suffix that fits and could not take one turn more.
  ghost predicate WindowOf(history: seq<Message>, budget: nat, context: Context) {
    var k := |context.messages|;
    && k + context.dropped == |history|
    && (context.truncated <==> history != [] && history[|history| - 1].tokens > budget)
    && if context.truncated then
         var newest := history[|history| - 1];
         && context.total == budget
         && context.messages == [Message(newest.role, Truncate(newest.content, budget), budget)]
       else
         && context.messages == Last(history, k)
         && context.total == Sum(context.messages) <= budget
         && (k < |history| ==> context.total == budget || Sum(Last(history, k + 1)) > budget)
         && (k > 0 ==> Sum(Last(history, k - 1)) < budget)
  }

  method Build(history: seq<Message>, maxTokens: nat) returns (context: Context)
    requires maxTokens >= 1
    ensures WindowOf(history, maxTokens, context)
  {
    var kept: seq<Message> := [];
    var used := 0;
    var truncated := false;
    var i := |history|;
    while i > 0
      invariant 0 <= i <= |history| && !truncated
      invariant kept == Last(history, |history| - i) && used == Sum(kept) <= maxTokens
      invariant kept != [] ==> Sum(Last(history, |history| - i - 1)) < maxTokens
      invariant kept != [] ==> history[|history| - 1].tokens <= maxTokens
    {
      var message := history[i - 1];
      var remaining := maxTokens - used;
      if remaining <= 0 {
        break;
      }
      if message.tokens <= remaining {
        assert ([message] + kept)[1..] == kept;
        kept := [message] + kept;
        used := used + message.tokens;
        i := i - 1;
        continue;
      }
      if kept != [] {
        assert Last(history, |kept| + 1) == [message] + kept;
        break;
      }
      kept := [Message(message.role, Truncate(message.content, remaining), remaining)];
      used := used + remaining;
      truncated := true;
      break;
    }
    context := Context(kept, used, |history| - |kept|, truncated);
  }

  // -- what a window is ---------------------------------------------------

  lemma {:induction false} SuffixGrows(history: seq<Message>, j: nat, k: nat)
    requires j <= k <= |history|
    ensures Sum(Last(history, j)) <= Sum(Last(history, k))
    ensures (forall i :: 0 <= i < |history| ==> history[i].tokens >= 1) && j < k ==>
              Sum(Last(history, j)) < Sum(Last(history, k))
    decreases k
  {
    if j < k {
      SuffixGrows(history, j, k - 1);
      assert Last(history, k)[1..] == Last(history, k - 1);
    }
  }

  // When every turn costs something and the newest fits, the window is the
  // longest suffix of the history within the budget.
  lemma LongestSuffix(history: seq<Message>, budget: nat, context: Context, j: nat)
    requires WindowOf(history, budget, context) && !context.truncated && j <= |history|
    requires forall i :: 0 <= i < |history| ==> history[i].tokens >= 1
    ensures Sum(Last(history, j)) <= budget <==> j <= |context.messages|
  {
    var k := |context.messages|;
    if j <= k {
      SuffixGrows(history, j, k);
    } else {
      SuffixGrows(history, k, k + 1);
      SuffixGrows(history, k + 1, j);
    }
  }

  // A larger budget never keeps fewer turns.
  lemma BiggerBudgetKeepsMore(history: seq<Message>, small: nat, large: nat, a: Context, b: Context)
    requires 1 <= small <= large && WindowOf(history, small, a) && WindowOf(history, large, b)
    ensures |a.messages| <= |b.messages|
  {
    var k, j := |b.messages|, |a.messages|;
    if j > k && !a.truncated {
      SuffixGrows(history, k + 1, j);
      SuffixGrows(history, k, j - 1);
    }
  }

  function TextTokens(messages: seq<Message>): nat {
    if messages == [] then 0 else EstimateTokens(messages[0].content) + TextTokens(messages[1..])
  }

  ghost predicate Estimated(messages: seq<Message>) {
    forall i :: 0 <= i < |messages| ==> messages[i].tokens == EstimateTokens(messages[i].content)
  }

  lemma {:induction false} TextIsSum(messages: seq<Message>)
    requires Estimated(messages)
    ensures TextTokens(messages) == Sum(messages)
  {
    if messages != [] {
      TextIsSum(messages[1..]);
    }
  }

  // The text of the window, estimated anew, stays within the budget exactly when
  // nothing was truncated or the budget is at least 4.
  lemma TextStaysInBudget(history: seq<Message>, budget: nat, context: Context)
    requires budget >= 1 && Estimated(history) && WindowOf(history, budget, context)
    ensures TextTokens(context.messages) <= budget <==> !context.truncated || budget >= 4
  {
    if context.truncated {
      TruncationFits(history[|history| - 1].content, budget);
      assert context.messages[1..] == [];
    } else {
      TextIsSum(context.messages);
    }
  }
}
